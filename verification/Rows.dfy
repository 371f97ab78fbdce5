/**
 Which row of the buying table is the k-th copy of an item, when it is built, and what a genuine building list says
 about it: the walk over the list that the fast validator makes finds, for every copy still to come, the entry with
 the time of its row.
 */
module Rows {
  import opened BenchCheck
  import opened Common
  import opened Ledger
  import opened Runs
  import opened Status
  import opened StatusReading
  import opened Sums
  import opened TableReading
  import opened Windows

  /** Later copies of an item are dated no earlier than earlier ones. */
  ghost predicate InTimeOrder(buying: seq<Buying>)
  {
    forall j, k :: 0 <= j < k < |buying| && buying[j].item == buying[k].item ==> buying[j].time <= buying[k].time
  }

  /** As far as copies dated after c are concerned; those dated by c come first, in whatever order. */
  ghost predicate InTimeOrderFrom(buying: seq<Buying>, c: int)
  {
    forall j, k :: 0 <= j < k < |buying| && buying[j].item == buying[k].item && c < buying[j].time ==>
      buying[j].time <= buying[k].time
  }

  /** The copies of an item dated by t come before those dated later. */
  ghost predicate BuiltFirst(buying: seq<Buying>, t: int)
  {
    forall j, k :: 0 <= j < k < |buying| && buying[j].item == buying[k].item && buying[k].time <= t ==>
      buying[j].time <= t
  }

  lemma OrderKeepsBuiltFirst(buying: seq<Buying>, c: int, t: int)
    requires InTimeOrderFrom(buying, c) && c <= t
    ensures BuiltFirst(buying, t)
  {
  }

  ghost predicate TablesOk(ms: Masters, adding: seq<Adding>, buying: seq<Buying>)
  {
    UniqueTimes(adding) && NonNegativeIsu(adding) && KnownItems(ms, buying) && InOrdinalOrder(buying)
  }

  /** When the k-th copy of an item is built, by its row. */
  function RowTime(buying: seq<Buying>, item: int, k: nat): int
  {
    if |buying| == 0 then 0
    else if buying[|buying| - 1].item == item && buying[|buying| - 1].ordinal == k then buying[|buying| - 1].time
    else RowTime(buying[..|buying| - 1], item, k)
  }

  function RowTimes(buying: seq<Buying>): (int, nat) -> int { (item: int, k: nat) => RowTime(buying, item, k) }

  lemma PrefixInOrder(buying: seq<Buying>, n: nat)
    requires n <= |buying| && InOrdinalOrder(buying)
    ensures InOrdinalOrder(buying[..n])
  {
    forall k | 0 <= k < n ensures buying[..n][k].ordinal == Bought(buying[..n][..k], buying[..n][k].item) + 1 {
      assert buying[..n][..k] == buying[..k];
    }
  }

  lemma OrdinalsDiffer(buying: seq<Buying>, j: nat, k: nat)
    requires InOrdinalOrder(buying) && j < k < |buying| && buying[j].item == buying[k].item
    ensures buying[j].ordinal < buying[k].ordinal
  {
    var i := buying[j].item;
    SumPush(buying[..j], buying[j], OfItem(i));
    assert buying[..j] + [buying[j]] == buying[..j + 1];
    PrefixCounts(buying[..j + 1], buying[..k], OfItem(i));
  }

  lemma RowsAreDistinct(buying: seq<Buying>)
    requires InOrdinalOrder(buying)
    ensures Distinct(buying)
  {
    forall j, k | 0 <= j < k < |buying| ensures buying[j] != buying[k] {
      if buying[j].item == buying[k].item {
        OrdinalsDiffer(buying, j, k);
      }
    }
  }

  lemma {:induction false} RowTimeIs(buying: seq<Buying>, k: nat)
    requires InOrdinalOrder(buying) && k < |buying|
    ensures RowTime(buying, buying[k].item, buying[k].ordinal) == buying[k].time
  {
    var n := |buying| - 1;
    if k < n {
      PrefixInOrder(buying, n);
      RowTimeIs(buying[..n], k);
      if buying[n].item == buying[k].item {
        OrdinalsDiffer(buying, k, n);
      }
    }
  }

  lemma {:induction false} AllBuilt(buying: seq<Buying>, item: int, t: int)
    requires forall k :: 0 <= k < |buying| && buying[k].item == item ==> buying[k].time <= t
    ensures Built(buying, item, t) == Bought(buying, item)
  {
    SumAgree(buying, BuiltBy(item, t), OfItem(item));
  }

  lemma BuiltAtMostBought(buying: seq<Buying>, item: int, t: int)
    ensures Built(buying, item, t) <= Bought(buying, item)
  {
    SumAtMost(buying, BuiltBy(item, t), OfItem(item));
  }

  /** A copy is dated by t exactly if it is among the first N_i(t). */
  lemma {:induction false} BuiltMeansDated(buying: seq<Buying>, item: int, k: nat, t: int)
    requires InOrdinalOrder(buying) && BuiltFirst(buying, t) && 1 <= k <= Bought(buying, item)
    ensures RowTime(buying, item, k) <= t <==> k <= Built(buying, item, t)
  {
    if |buying| > 0 {
      var n := |buying| - 1;
      var rest, b := buying[..n], buying[n];
      PrefixInOrder(buying, n);
      BuiltAtMostBought(rest, item, t);
      if b.item == item && b.time <= t {
        AllBuilt(rest, item, t);
      }
      if k <= Bought(rest, item) {
        BuiltMeansDated(rest, item, k, t);
      }
    }
  }

  lemma RowOfCopy(buying: seq<Buying>, item: int, k: nat)
    requires InOrdinalOrder(buying) && 1 <= k <= Bought(buying, item)
    ensures Buying(item, k, RowTime(buying, item, k)) in buying
  {
    OrdinalsAreContiguous(buying, item, k);
    var j :| 0 <= j < |buying| && buying[j].item == item && buying[j].ordinal == k;
    RowTimeIs(buying, j);
    assert buying[j] in buying;
  }

  lemma CopyOfRow(buying: seq<Buying>, b: Buying)
    requires InOrdinalOrder(buying) && b in buying
    ensures 1 <= b.ordinal <= Bought(buying, b.item) && b.time == RowTime(buying, b.item, b.ordinal)
  {
    var j :| 0 <= j < |buying| && buying[j] == b;
    OrdinalsAreContiguous(buying, b.item, b.ordinal);
    RowTimeIs(buying, j);
  }

  /** The items list each item of ms once, with its bought count and its built count at c. */
  ghost predicate CountsRight(ms: Masters, items: seq<ItemStatus>, buying: seq<Buying>, c: int)
  {
    && UniqueIds(items)
    && (forall i :: i in ms <==> exists k :: 0 <= k < |items| && items[k].itemId == i)
    && forall k :: 0 <= k < |items| ==>
      items[k].countBought == Bought(buying, items[k].itemId)
        && items[k].countBuilt == Built(buying, items[k].itemId, c)
  }

  lemma ListedCountsAreRight(ms: Masters, adding: seq<Adding>, buying: seq<Buying>, c: int, items: seq<ItemStatus>)
    requires ListsItems(items, WindowOf(ms, adding, buying, c), BoughtMap(ms, buying))
    ensures CountsRight(ms, items, buying, c)
  {
    var w := WindowOf(ms, adding, buying, c);
    forall k | 0 <= k < |items|
      ensures items[k].countBought == Bought(buying, items[k].itemId)
        && items[k].countBuilt == Built(buying, items[k].itemId, c)
    {
      assert items[k].itemId in ms;
      assert GetOr<int, nat>(w.itemBuilt, items[k].itemId, 0) == Built(buying, items[k].itemId, c);
    }
  }

  lemma TableHoldsCopies(ms: Masters, buying: seq<Buying>, items: seq<ItemStatus>, c: int)
    requires KnownItems(ms, buying) && InOrdinalOrder(buying) && CountsRight(ms, items, buying, c)
    ensures HoldsCopies(buying, items, RowTimes(buying))
  {
    var f := RowTimes(buying);
    RowsAreDistinct(buying);
    PartsOwnTheirRows(items, f);
    FlattenHolds(items, AllPart(f));
    forall b ensures b in buying <==> b in Flatten(items, AllPart(f)) {
      if b in buying {
        CopyOfRow(buying, b);
        var k :| 0 <= k < |items| && items[k].itemId == b.item;
        CopiesHold(b.item, 0, items[k].countBought, f);
        assert items[k] in items && b in AllPart(f)(items[k]);
      } else if b in Flatten(items, AllPart(f)) {
        var x :| x in items && b in AllPart(f)(x);
        CopiesHold(x.itemId, 0, x.countBought, f);
        RowOfCopy(buying, x.itemId, b.ordinal);
      }
    }
  }

  lemma TableCountsBuilt(ms: Masters, buying: seq<Buying>, items: seq<ItemStatus>, c: int)
    requires InOrdinalOrder(buying) && BuiltFirst(buying, c) && CountsRight(ms, items, buying, c)
    ensures CountsBuilt(items, RowTimes(buying), c)
  {
    forall x | x in items
      ensures x.countBuilt <= x.countBought
      ensures forall k: nat :: 1 <= k <= x.countBought ==> (RowTime(buying, x.itemId, k) <= c <==> k <= x.countBuilt)
    {
      BuiltAtMostBought(buying, x.itemId, c);
      forall k: nat | 1 <= k <= x.countBought ensures RowTime(buying, x.itemId, k) <= c <==> k <= x.countBuilt {
        BuiltMeansDated(buying, x.itemId, k, c);
      }
    }
  }

  // ---- Building lists --------------------------------------------------------------------------------------------

  predicate BuiltThen(buying: seq<Buying>, item: int, t: int)
  {
    exists b :: b in buying && b.item == item && b.time == t
  }

  /** Counts that start above `built` and strictly increase. */
  ghost predicate CountsUp(building: seq<Building>, built: int)
  {
    && (forall p :: 0 <= p < |building| ==> built < building[p].countBuilt)
    && (forall p, q :: 0 <= p < q < |building| ==> building[p].countBuilt < building[q].countBuilt)
  }

  /** The list has one entry per build time in (c, c+1000], in order, with the count reached then. */
  ghost predicate TrueBuilding(building: seq<Building>, buying: seq<Buying>, item: int, c: int)
  {
    && (forall p :: 0 <= p < |building| ==>
      c < building[p].time && building[p].countBuilt == Built(buying, item, building[p].time))
    && (forall p, q :: 0 <= p < q < |building| ==> building[p].time < building[q].time)
    && CountsUp(building, Built(buying, item, c))
    && (forall b :: b in buying && b.item == item && c < b.time <= c + 1000 ==>
      exists p :: 0 <= p < |building| && building[p].time == b.time)
  }

  lemma BuildsAreRows(ms: Masters, adding: seq<Adding>, buying: seq<Buying>, c: int, item: int, t: int)
    requires c < t
    ensures BuildsAt(WindowOf(ms, adding, buying, c), item, t) <==> BuiltThen(buying, item, t)
  {
    FutureBuysAt(buying, c, t);
    var w := WindowOf(ms, adding, buying, c);
    if BuiltThen(buying, item, t) {
      var b :| b in buying && b.item == item && b.time == t;
      assert b in BuysAt(w, t);
    }
  }

  /** Where a row of the item is dated, its built count grows. */
  lemma BuiltGrows(buying: seq<Buying>, item: int, s: int, t: int)
    requires s < t && BuiltThen(buying, item, t)
    ensures Built(buying, item, s) < Built(buying, item, t)
  {
    var b :| b in buying && b.item == item && b.time == t;
    var k :| 0 <= k < |buying| && buying[k] == b;
    var rest := buying[..k] + buying[k + 1..];
    SumWithout(buying, k, BuiltBy(item, s));
    SumWithout(buying, k, BuiltBy(item, t));
    SumAtMost(rest, BuiltBy(item, s), BuiltBy(item, t));
  }

  lemma BatchTells(ms: Masters, adding: seq<Adding>, buying: seq<Buying>, c: int, item: int, s: int)
    requires item in ms && c < s
    requires BuildsAt(WindowOf(ms, adding, buying, c), item, s)
    ensures BatchAt(WindowOf(ms, adding, buying, c), item, s).countBuilt == Built(buying, item, s)
    ensures BuiltThen(buying, item, s) && Built(buying, item, c) < Built(buying, item, s)
  {
    BuildsAreRows(ms, adding, buying, c, item, s);
    SimulationCounts(ms, adding, buying, c, s);
    BuiltGrows(buying, item, c, s);
  }

  lemma BatchesAreTrue(ms: Masters, adding: seq<Adding>, buying: seq<Buying>, c: int, item: int, bs: seq<Batch>)
    requires item in ms
    requires bs == BatchesTo(WindowOf(ms, adding, buying, c), item, c + 1000)
    ensures forall p :: 0 <= p < |bs| ==> c < bs[p].time && bs[p].countBuilt == Built(buying, item, bs[p].time)
    ensures forall p :: 0 <= p < |bs| ==>
      BuiltThen(buying, item, bs[p].time) && Built(buying, item, c) < bs[p].countBuilt
    ensures forall p, q :: 0 <= p < q < |bs| ==> bs[p].time < bs[q].time
    ensures forall b :: b in buying && b.item == item && c < b.time <= c + 1000 ==>
      exists p :: 0 <= p < |bs| && bs[p].time == b.time
  {
    var w := WindowOf(ms, adding, buying, c);
    BatchesAreExact(w, item, c + 1000);
    forall p | 0 <= p < |bs|
      ensures c < bs[p].time && bs[p].countBuilt == Built(buying, item, bs[p].time)
      ensures BuiltThen(buying, item, bs[p].time) && Built(buying, item, c) < bs[p].countBuilt
    {
      BatchTells(ms, adding, buying, c, item, bs[p].time);
    }
    forall b | b in buying && b.item == item && c < b.time <= c + 1000
      ensures exists p :: 0 <= p < |bs| && bs[p].time == b.time
    {
      BuildsAreRows(ms, adding, buying, c, item, b.time);
      var p :| 0 <= p < |bs| && bs[p] == BatchAt(w, item, b.time);
    }
  }

  lemma ViewHasTrueBuilding(ms: Masters, adding: seq<Adding>, buying: seq<Buying>, c: int, item: int, bought: nat)
    requires item in ms
    ensures TrueBuilding(ItemView(WindowOf(ms, adding, buying, c), item, bought).building, buying, item, c)
  {
    var w := WindowOf(ms, adding, buying, c);
    var bs := BatchesTo(w, item, c + 1000);
    var building := ItemView(w, item, bought).building;
    assert building == RoundBatches(bs);
    BatchesAreTrue(ms, adding, buying, c, item, bs);
    forall p, q | 0 <= p < q < |bs| ensures bs[p].countBuilt < bs[q].countBuilt {
      BuiltGrows(buying, item, bs[p].time, bs[q].time);
    }
    RoundingKeepsBuilding(bs, buying, item, c);
  }

  lemma RoundingKeepsBuilding(bs: seq<Batch>, buying: seq<Buying>, item: int, c: int)
    requires forall p :: 0 <= p < |bs| ==> c < bs[p].time && bs[p].countBuilt == Built(buying, item, bs[p].time)
    requires forall p :: 0 <= p < |bs| ==> Built(buying, item, c) < bs[p].countBuilt
    requires forall p, q :: 0 <= p < q < |bs| ==> bs[p].time < bs[q].time && bs[p].countBuilt < bs[q].countBuilt
    requires forall b :: b in buying && b.item == item && c < b.time <= c + 1000 ==>
      exists p :: 0 <= p < |bs| && bs[p].time == b.time
    ensures TrueBuilding(RoundBatches(bs), buying, item, c)
  {
    var building := RoundBatches(bs);
    forall b | b in buying && b.item == item && c < b.time <= c + 1000
      ensures exists p :: 0 <= p < |building| && building[p].time == b.time
    {
      var p :| 0 <= p < |bs| && bs[p].time == b.time;
      assert building[p].time == b.time;
    }
  }

  /** The walking index is the least entry whose count reaches copy k. */
  lemma {:induction false} WalkReaches(building: seq<Building>, built: nat, k: nat)
    requires CountsUp(building, built) && built <= k
    ensures var p := WalkIdx(building, built, k);
            && p <= |building|
            && (p > 0 ==> building[p - 1].countBuilt < k) && (p < |building| ==> k <= building[p].countBuilt)
    decreases k
  {
    if built < k {
      WalkReaches(building, built, k - 1);
    }
  }

  /** For every copy still to come the walk finds the entry that carries its time. */
  lemma WalkFindsTime(x: ItemStatus, buying: seq<Buying>, c: int, k: nat)
    requires InOrdinalOrder(buying) && InTimeOrderFrom(buying, c)
    requires TrueBuilding(x.building, buying, x.itemId, c)
    requires Built(buying, x.itemId, c) == x.countBuilt < k <= Bought(buying, x.itemId)
    requires RowTime(buying, x.itemId, k) <= c + 1000
    ensures WalkIdx(x.building, x.countBuilt, k) < |x.building|
    ensures x.building[WalkIdx(x.building, x.countBuilt, k)].time == RowTime(buying, x.itemId, k)
  {
    hide InOrdinalOrder, InTimeOrder, CountsUp, RowTime;
    var i, t, p := x.itemId, RowTime(buying, x.itemId, k), WalkIdx(x.building, x.countBuilt, k);
    WalkReaches(x.building, x.countBuilt, k);
    BuiltMeansDated(buying, i, k, c);
    RowOfCopy(buying, i, k);
    assert Buying(i, k, t) in buying;
    var q :| 0 <= q < |x.building| && x.building[q].time == t;
    if p > 0 {
      BuiltMeansDated(buying, i, k, x.building[p - 1].time);
    }
    if p < |x.building| {
      BuiltMeansDated(buying, i, k, x.building[p].time);
    }
  }

  lemma {:induction false} WalkRowsAreRows(x: ItemStatus, buying: seq<Buying>, c: int, k: nat)
    requires InOrdinalOrder(buying) && InTimeOrderFrom(buying, c)
    requires TrueBuilding(x.building, buying, x.itemId, c)
    requires Built(buying, x.itemId, c) == x.countBuilt <= k <= Bought(buying, x.itemId)
    requires forall b :: b in buying ==> b.time <= c + 1000
    ensures WalkRows(x, k) == Copies(x.itemId, x.countBuilt, k, RowTimes(buying))
    decreases k
  {
    if x.countBuilt < k {
      WalkRowsAreRows(x, buying, c, k - 1);
      RowOfCopy(buying, x.itemId, k);
      WalkFindsTime(x, buying, c, k);
    }
  }
}
