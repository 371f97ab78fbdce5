/** The status a room reports: calcStatus, and what its lists mean. */
module Status {
  import opened Common
  import opened Exponents
  import opened Ledger
  import opened Sums
  import opened Windows

  datatype ScheduleEntry = ScheduleEntry(time: int, milliIsu: Exponential, totalPower: Exponential)
  datatype Building = Building(time: int, countBuilt: int, power: Exponential)
  datatype ItemStatus = ItemStatus(
    itemId: int, countBought: nat, countBuilt: nat, nextPrice: Exponential, power: Exponential, building: seq<Building>)
  datatype OnSale = OnSale(itemId: int, time: int)
  datatype GameStatus = GameStatus(
    time: int, adding: seq<Adding>, schedule: seq<ScheduleEntry>, items: seq<ItemStatus>, onSale: seq<OnSale>)

  function RoundPoint(p: Point): ScheduleEntry { ScheduleEntry(p.time, Big2Exp(p.milliIsu), Big2Exp(p.totalPower)) }
  function RoundBatch(b: Batch): Building { Building(b.time, b.countBuilt, Big2Exp(b.power)) }
  function RoundSchedule(ps: seq<Point>): seq<ScheduleEntry>
  {
    seq(|ps|, i requires 0 <= i < |ps| => RoundPoint(ps[i]))
  }
  function RoundBatches(bs: seq<Batch>): seq<Building> { seq(|bs|, i requires 0 <= i < |bs| => RoundBatch(bs[i])) }

  /** What a window says of one item of which `bought` copies are bought. */
  function ItemView(w: Window, item: int, bought: nat): ItemStatus
  {
    ItemStatus(item, bought, GetOr<int, nat>(w.itemBuilt, item, 0), Big2Exp(Price(w.ms, item, bought + 1)),
               Big2Exp(GetOr(w.itemPower, item, 0)), RoundBatches(BatchesTo(w, item, Horizon(w))))
  }

  function Need(ms: Masters, item: int, bought: nat): int { 1000 * Price(ms, item, bought + 1) }

  /** The on-sale times at t of the items priced in `needs`. */
  function OnSaleMap(w: Window, needs: map<int, int>, t: int): map<int, int>
  {
    map i | i in needs && OnSaleTo(w, needs[i], t).Some? :: OnSaleTo(w, needs[i], t).value
  }

  function Needs(ms: Masters, bought: map<int, nat>): map<int, int>
  {
    map i | i in ms :: Need(ms, i, GetOr(bought, i, 0))
  }

  /** The list holds each item of ms once, as `view` describes it. */
  ghost predicate ListsItems(items: seq<ItemStatus>, w: Window, bought: map<int, nat>)
  {
    && (forall j, k :: 0 <= j < k < |items| ==> items[j].itemId != items[k].itemId)
    && (forall k :: 0 <= k < |items| ==> items[k].itemId in w.ms)
    && (forall k :: 0 <= k < |items| ==> items[k] == ItemView(w, items[k].itemId, GetOr(bought, items[k].itemId, 0)))
    && (forall i :: i in w.ms ==> exists k :: 0 <= k < |items| && items[k].itemId == i)
  }

  /** The list holds each entry of the dictionary once, in any order. */
  ghost predicate ListsTimes(list: seq<OnSale>, m: map<int, int>)
  {
    && (forall j, k :: 0 <= j < k < |list| ==> list[j].itemId != list[k].itemId)
    && (forall k :: 0 <= k < |list| ==> list[k].itemId in m && m[list[k].itemId] == list[k].time)
    && (forall i :: i in m ==> exists k :: 0 <= k < |list| && list[k].itemId == i)
  }

  ghost predicate ListsAdds(list: seq<Adding>, m: map<int, int>)
  {
    && (forall j, k :: 0 <= j < k < |list| ==> list[j].time != list[k].time)
    && (forall k :: 0 <= k < |list| ==> list[k].time in m && m[list[k].time] == list[k].isu)
    && (forall t :: t in m ==> exists k :: 0 <= k < |list| && list[k].time == t)
  }

  function BoughtMap(ms: Masters, buying: seq<Buying>): map<int, nat> { map i | i in ms :: Bought(buying, i) }

  /** st shows what the window shows: schedule, items and on-sale times. */
  ghost predicate Shows(st: GameStatus, w: Window, bought: map<int, nat>)
  {
    && st.schedule == RoundSchedule(ScheduleTo(w, Horizon(w)))
    && ListsItems(st.items, w, bought)
    && ListsTimes(st.onSale, OnSaleMap(w, Needs(w.ms, bought), Horizon(w)))
  }

  /** st is a status of the given tables at time c. */
  ghost predicate IsStatusOf(st: GameStatus, ms: Masters, adding: seq<Adding>, buying: seq<Buying>, c: int)
  {
    && Shows(st, WindowOf(ms, adding, buying, c), BoughtMap(ms, buying))
    && ListsAdds(st.adding, FutureAdds(adding, c))
  }

  // ---- calcStatus -------------------------------------------------------------------------------

  /** The loop over the adding rows: what counts at c, and what is dated later. */
  method ReadAddings(c: int, adding: seq<Adding>) returns (totalMilliIsu: int, addingAt: map<int, int>)
    ensures totalMilliIsu == 1000 * Sum(adding, IsuBy(c)) && addingAt == FutureAdds(adding, c)
  {
    totalMilliIsu, addingAt := 0, map[];
    for k := 0 to |adding|
      invariant totalMilliIsu == 1000 * Sum(adding[..k], IsuBy(c))
      invariant addingAt == FutureAdds(adding[..k], c)
    {
      var a := adding[k];
      assert adding[..k + 1][..k] == adding[..k];
      if a.time <= c {
        totalMilliIsu := totalMilliIsu + 1000 * a.isu;
      } else {
        addingAt := addingAt[a.time := a.isu];
      }
    }
    assert adding[..|adding|] == adding;
  }

  function PowerMap(ms: Masters, buying: seq<Buying>, c: int): map<int, int>
  {
    map i | i in ms :: ItemPower(ms, buying, i, c)
  }
  function BuiltMap(ms: Masters, buying: seq<Buying>, c: int): map<int, nat> { map i | i in ms :: Built(buying, i, c) }

  lemma PushCounts(ms: Masters, buying: seq<Buying>, b: Buying, c: int)
    requires b.item in ms
    ensures BoughtMap(ms, buying + [b]) == BoughtMap(ms, buying)[b.item := Bought(buying, b.item) + 1]
    ensures BuiltMap(ms, buying + [b], c)
         == if b.time <= c then BuiltMap(ms, buying, c)[b.item := Built(buying, b.item, c) + 1]
           else BuiltMap(ms, buying, c)
  {
    forall i ensures Bought(buying + [b], i) == Bought(buying, i) + OfItem(i)(b) {
      SumPush(buying, b, OfItem(i));
    }
    forall i ensures Built(buying + [b], i, c) == Built(buying, i, c) + BuiltBy(i, c)(b) {
      SumPush(buying, b, BuiltBy(i, c));
    }
    SameTable(BoughtMap(ms, buying + [b]), BoughtMap(ms, buying)[b.item := Bought(buying, b.item) + 1]);
    SameTable(BuiltMap(ms, buying + [b], c),
      if b.time <= c then BuiltMap(ms, buying, c)[b.item := Built(buying, b.item, c) + 1] else BuiltMap(ms, buying, c));
  }

  lemma PushPower(ms: Masters, buying: seq<Buying>, b: Buying, c: int)
    requires b.item in ms
    ensures PowerMap(ms, buying + [b], c)
         == if b.time <= c
           then PowerMap(ms, buying, c)[b.item := ItemPower(ms, buying, b.item, c) + Power(ms, b.item, b.ordinal)]
            else PowerMap(ms, buying, c)
  {
    forall i ensures ItemPower(ms, buying + [b], i, c) == ItemPower(ms, buying, i, c) + ItemPowerBy(ms, i, c)(b) {
      SumPush(buying, b, ItemPowerBy(ms, i, c));
    }
    SameTable(PowerMap(ms, buying + [b], c),
      if b.time <= c
        then PowerMap(ms, buying, c)[b.item := ItemPower(ms, buying, b.item, c) + Power(ms, b.item, b.ordinal)]
      else PowerMap(ms, buying, c));
  }

  /** The row as the loop takes it: its ordinal is the running count of its item's rows. */
  function Counted(before: seq<Buying>, b: Buying): Buying { Buying(b.item, Bought(before, b.item) + 1, b.time) }

  function Recounted(buying: seq<Buying>): seq<Buying>
  {
    if |buying| == 0 then []
    else Recounted(buying[..|buying| - 1]) + [Counted(buying[..|buying| - 1], buying[|buying| - 1])]
  }

  lemma PushTotals(ms: Masters, buying: seq<Buying>, b: Buying, c: int)
    ensures Recounted(buying + [b]) == Recounted(buying) + [Counted(buying, b)]
    ensures SpentRead(ms, buying + [b], c)
         == SpentRead(ms, buying, c) - 1000 * Price(ms, b.item, b.ordinal) + Gain(ms, c)(Counted(buying, b))
    ensures TotalPower(ms, Recounted(buying + [b]), c)
         == TotalPower(ms, Recounted(buying), c) + PowerBy(ms, c)(Counted(buying, b))
    ensures FutureBuys(buying + [b], c)
         == if b.time <= c then FutureBuys(buying, c)
            else FutureBuys(buying, c)[b.time := GetOr(FutureBuys(buying, c), b.time, []) + [b]]
  {
    assert (buying + [b])[..|buying|] == buying;
    SumPush(Recounted(buying), Counted(buying, b), Gain(ms, c));
    SumPush(Recounted(buying), Counted(buying, b), PowerBy(ms, c));
    SumPush(buying, b, Cost(ms));
  }

  function Spent(ms: Masters, buying: seq<Buying>, c: int): int { Sum(buying, Gain(ms, c)) - Sum(buying, Cost(ms)) }

  /** Prices by ordinal, production by running count. */
  function SpentRead(ms: Masters, buying: seq<Buying>, c: int): int
  {
    Sum(Recounted(buying), Gain(ms, c)) - Sum(buying, Cost(ms))
  }

  /** The totals the loop over the buying rows keeps. */
  datatype Books = Books(
    milliIsu: int, totalPower: int, itemBought: map<int, nat>, itemPower: map<int, int>, itemBuilt: map<int, nat>,
      buyingAt: map<int, seq<Buying>>)

  /** What the loop makes of the rows in the order in which they are listed. */
  function BooksRead(ms: Masters, buying: seq<Buying>, c: int): Books
  {
    Books(SpentRead(ms, buying, c), TotalPower(ms, Recounted(buying), c), BoughtMap(ms, buying),
      PowerMap(ms, Recounted(buying), c), BuiltMap(ms, buying, c), FutureBuys(buying, c))
  }

  /** The closed forms, in which a row's copy is its ordinal. */
  function BooksOf(ms: Masters, buying: seq<Buying>, c: int): Books
  {
    Books(Spent(ms, buying, c), TotalPower(ms, buying, c), BoughtMap(ms, buying),
      PowerMap(ms, buying, c), BuiltMap(ms, buying, c), FutureBuys(buying, c))
  }

  /** The loop body for one buying row.  A built item's power is looked up by the running count of its rows. */
  method ReadBuying(c: int, ms: Masters, b: Buying, k: Books, ghost before: seq<Buying>) returns (r: Books)
    requires b.item in ms && k == BooksRead(ms, before, c)
    ensures r == BooksRead(ms, before + [b], c)
  {
    hide SpentRead, Recounted, TotalPower, ItemPower, Bought, Built, FutureBuys, Sum, Price, Power;
    var itemBought := k.itemBought[b.item := k.itemBought[b.item] + 1];
    var milliIsu := k.milliIsu - 1000 * Price(ms, b.item, b.ordinal);
    if b.time <= c {
      var itemBuilt := k.itemBuilt[b.item := k.itemBuilt[b.item] + 1];
      var power := Power(ms, b.item, itemBought[b.item]);
      r := Books(milliIsu + power * (c - b.time), k.totalPower + power, itemBought,
                 k.itemPower[b.item := k.itemPower[b.item] + power], itemBuilt, k.buyingAt);
    } else {
      r := Books(milliIsu, k.totalPower, itemBought, k.itemPower, k.itemBuilt,
                 k.buyingAt[b.time := GetOr(k.buyingAt, b.time, []) + [b]]);
    }
    PushBooks(c, ms, b, before, r);
  }

  lemma PushBooks(c: int, ms: Masters, b: Buying, before: seq<Buying>, r: Books)
    requires b.item in ms
    requires r.milliIsu
      == SpentRead(ms, before, c) - 1000 * Price(ms, b.item, b.ordinal) + Gain(ms, c)(Counted(before, b))
    requires r.totalPower == TotalPower(ms, Recounted(before), c) + PowerBy(ms, c)(Counted(before, b))
    requires r.itemBought == BoughtMap(ms, before)[b.item := Bought(before, b.item) + 1]
    requires r.itemPower == if b.time <= c
      then PowerMap(ms, Recounted(before), c)[b.item :=
             ItemPower(ms, Recounted(before), b.item, c) + Power(ms, b.item, Bought(before, b.item) + 1)]
      else PowerMap(ms, Recounted(before), c)
    requires r.itemBuilt == if b.time <= c then BuiltMap(ms, before, c)[b.item := Built(before, b.item, c) + 1]
      else BuiltMap(ms, before, c)
    requires r.buyingAt == if b.time <= c then FutureBuys(before, c)
      else FutureBuys(before, c)[b.time := GetOr(FutureBuys(before, c), b.time, []) + [b]]
    ensures r == BooksRead(ms, before + [b], c)
  {
    hide SpentRead, Recounted, TotalPower, ItemPower, PowerMap, BoughtMap, BuiltMap, FutureBuys, Bought, Built;
    var after := before + [b];
    assert r.milliIsu == SpentRead(ms, after, c) && r.totalPower == TotalPower(ms, Recounted(after), c)
      && r.buyingAt == FutureBuys(after, c) by {
      PushTotals(ms, before, b, c);
    }
    assert r.itemBought == BoughtMap(ms, after) && r.itemBuilt == BuiltMap(ms, after, c) by {
      PushCounts(ms, before, b, c);
    }
    assert r.itemPower == PowerMap(ms, Recounted(after), c) by {
      PushTotals(ms, before, b, c);
      PushPower(ms, Recounted(before), Counted(before, b), c);
    }
  }

  /** The loop over the buying rows, in whatever order the query lists them. */
  method ReadBuyings(c: int, ms: Masters, buying: seq<Buying>) returns (r: Books)
    requires KnownItems(ms, buying)
    ensures r == BooksRead(ms, buying, c)
    ensures AtOrdinals(buying, c) ==> r == BooksOf(ms, buying, c)
  {
    var zero: map<int, nat> := map i | i in ms :: 0;
    r := Books(0, 0, zero, zero, zero, map[]);
    SameTable(r.itemBought, BoughtMap(ms, []));
    SameTable(zero, PowerMap(ms, [], c));
    SameTable(zero, BuiltMap(ms, [], c));
    assert buying[..0] == [];
    for k := 0 to |buying|
      invariant r == BooksRead(ms, buying[..k], c)
    {
      assert buying[..k + 1] == buying[..k] + [buying[k]];
      r := ReadBuying(c, ms, buying[k], r, buying[..k]);
    }
    assert buying[..|buying|] == buying;
    if AtOrdinals(buying, c) {
      OrdinalsReadRight(ms, buying, c);
    }
  }

  // ---- Listings -------------------------------------------------------------------------------------------------

  /** Every row dated by c is listed at its ordinal. */
  ghost predicate AtOrdinals(buying: seq<Buying>, c: int)
  {
    forall k :: 0 <= k < |buying| && buying[k].time <= c ==> buying[k] == Counted(buying[..k], buying[k])
  }

  lemma OrderedAtOrdinals(buying: seq<Buying>, c: int)
    requires InOrdinalOrder(buying)
    ensures AtOrdinals(buying, c)
  {
  }

  lemma {:induction false} RecountedAt(buying: seq<Buying>)
    ensures |Recounted(buying)| == |buying|
    ensures forall k :: 0 <= k < |buying| ==> Recounted(buying)[k] == Counted(buying[..k], buying[k])
  {
    if |buying| > 0 {
      var n := |buying| - 1;
      RecountedAt(buying[..n]);
      forall k | 0 <= k < n ensures buying[..n][..k] == buying[..k] {
      }
    }
  }

  /** Then the loop computes the closed forms. */
  lemma OrdinalsReadRight(ms: Masters, buying: seq<Buying>, c: int)
    requires AtOrdinals(buying, c)
    ensures BooksRead(ms, buying, c) == BooksOf(ms, buying, c)
  {
    RecountedAt(buying);
    var read := Recounted(buying);
    forall k | 0 <= k < |buying|
      ensures Gain(ms, c)(read[k]) == Gain(ms, c)(buying[k]) && PowerBy(ms, c)(read[k]) == PowerBy(ms, c)(buying[k])
      ensures forall i :: ItemPowerBy(ms, i, c)(read[k]) == ItemPowerBy(ms, i, c)(buying[k])
    {
      if buying[k].time <= c {
        assert buying[k] == Counted(buying[..k], buying[k]);
      }
    }
    SumPairwise(read, buying, Gain(ms, c));
    SumPairwise(read, buying, PowerBy(ms, c));
    forall i ensures ItemPower(ms, read, i, c) == ItemPower(ms, buying, i, c) {
      SumPairwise(read, buying, ItemPowerBy(ms, i, c));
    }
    SameTable(PowerMap(ms, read, c), PowerMap(ms, buying, c));
  }

  function WithPower(ms: Masters, m: map<int, int>, buys: seq<Buying>): map<int, int>
  {
    map i | i in m :: m[i] + Sum(buys, ItemPowerRow(ms, i))
  }

  function WithCounts(m: map<int, int>, buys: seq<Buying>): map<int, int>
  {
    map i | i in m :: m[i] + Sum(buys, OfItem(i))
  }

  function ItemsOf(buys: seq<Buying>): set<int> { set b | b in buys :: b.item }

  method ApplyBuy(ms: Masters, b: Buying, power0: int, itemPower0: map<int, int>, itemBuilt0: map<int, int>,
                  ghost before: seq<Buying>,
                  ghost powers: map<int, int>, ghost counts: map<int, int>)
    returns (power: int, itemPower: map<int, int>, itemBuilt: map<int, int>)
    requires b.item in powers && b.item in counts
    requires itemPower0 == WithPower(ms, powers, before) && itemBuilt0 == WithCounts(counts, before)
    ensures power == power0 + Power(ms, b.item, b.ordinal)
    ensures itemPower == WithPower(ms, powers, before + [b]) && itemBuilt == WithCounts(counts, before + [b])
  {
    var p := Power(ms, b.item, b.ordinal);
    itemPower := itemPower0[b.item := itemPower0[b.item] + p];
    itemBuilt := itemBuilt0[b.item := itemBuilt0[b.item] + 1];
    power := power0 + p;
  }

  /** One millisecond's purchases: totals, per-item power and counts, and which items changed. */
  method ApplyBuys(ms: Masters, buys: seq<Buying>, power0: int, itemPower0: map<int, int>, itemBuilt0: map<int, int>)
    returns (power: int, itemPower: map<int, int>, itemBuilt: map<int, int>, updated: set<int>)
    requires forall b :: b in buys ==> b.item in itemPower0 && b.item in itemBuilt0
    ensures power == power0 + Sum(buys, PowerRow(ms))
    ensures itemPower == WithPower(ms, itemPower0, buys) && itemBuilt == WithCounts(itemBuilt0, buys)
    ensures updated == ItemsOf(buys)
  {
    power, itemPower, itemBuilt, updated := power0, itemPower0, itemBuilt0, {};
    assert itemPower == WithPower(ms, itemPower0, buys[..0]);
    assert itemBuilt == WithCounts(itemBuilt0, buys[..0]);
    hide WithPower, WithCounts;
    for k := 0 to |buys|
      invariant power == power0 + Sum(buys[..k], PowerRow(ms))
      invariant itemPower == WithPower(ms, itemPower0, buys[..k])
      invariant itemBuilt == WithCounts(itemBuilt0, buys[..k])
      invariant updated == ItemsOf(buys[..k])
    {
      var b := buys[k];
      assert buys[..k + 1] == buys[..k] + [b];
      updated := updated + {b.item};
      SumPush(buys[..k], b, PowerRow(ms));
      power, itemPower, itemBuilt := ApplyBuy(ms, b, power, itemPower, itemBuilt, buys[..k], itemPower0, itemBuilt0);
    }
    assert buys[..|buys|] == buys;
  }

  function WithBatches(updated: set<int>, t: int, powers: map<int, int>, counts: map<int, int>, building: map<int,
                       seq<Batch>>): map<int, seq<Batch>>
  {
    map i | i in building :: if i in updated then building[i] + [Batch(t, GetOr(counts, i, 0), GetOr(powers, i, 0))]
      else building[i]
  }

  /** Appends this millisecond's batch to every item that changed. */
  method PushBatches(updated: set<int>, t: int, powers: map<int, int>, counts: map<int, int>, building0: map<int,
                     seq<Batch>>)
    returns (building: map<int, seq<Batch>>)
    requires updated <= powers.Keys && updated <= counts.Keys && updated <= building0.Keys
    ensures building == WithBatches(updated, t, powers, counts, building0)
  {
    building := building0;
    var ids := Listing(updated);
    for k := 0 to |ids|
      invariant building.Keys == building0.Keys
      invariant forall i :: i in building0 && i in ids[..k] ==>
        building[i] == building0[i] + [Batch(t, counts[i], powers[i])]
      invariant forall i :: i in building0 && i !in ids[..k] ==> building[i] == building0[i]
    {
      var id := ids[k];
      assert ids[..k + 1] == ids[..k] + [id];
      assert id !in ids[..k];
      building := building[id := building[id] + [Batch(t, counts[id], powers[id])]];
    }
    assert ids[..|ids|] == ids;
    SameTable(building, WithBatches(updated, t, powers, counts, building0));
  }

  function WithOnSale(needs: map<int, int>, totalMilliIsu: int, t: int, onSale: map<int, int>): map<int, int>
  {
    map i | i in needs && (i in onSale || needs[i] <= totalMilliIsu) :: if i in onSale then onSale[i] else t
  }

  /** Records `t` for every item that is affordable and has no time yet. */
  method MarkOnSale(needs: map<int, int>, totalMilliIsu: int, t: int, onSale0: map<int, int>)
    returns (onSale: map<int, int>)
    requires onSale0.Keys <= needs.Keys
    ensures onSale == WithOnSale(needs, totalMilliIsu, t, onSale0)
  {
    onSale := onSale0;
    var ids := Listing(needs.Keys);
    for k := 0 to |ids|
      invariant onSale.Keys <= needs.Keys
      invariant forall i :: i in needs ==>
        (i in onSale <==> i in onSale0 || (i in ids[..k] && needs[i] <= totalMilliIsu))
      invariant forall i :: i in onSale ==> onSale[i] == if i in onSale0 then onSale0[i] else t
    {
      var id := ids[k];
      assert ids[..k + 1] == ids[..k] + [id];
      assert id in ids;
      if id !in onSale && needs[id] <= totalMilliIsu {
        onSale := onSale[id := t];
      }
    }
    assert ids[..|ids|] == ids;
    SameTable(onSale, WithOnSale(needs, totalMilliIsu, t, onSale0));
  }

  // ---- The simulation of the next 1000 milliseconds ------------------------------------------------

  ghost predicate KnownWindow(w: Window)
  {
    && w.itemPower.Keys == w.ms.Keys && w.itemBuilt.Keys == w.ms.Keys
    && forall t, b :: t in w.buys && b in w.buys[t] ==> b.item in w.ms
  }

  function PowersAt(w: Window, t: int): map<int, int> { map i | i in w.ms :: ItemPowerNow(w, i, t) }
  function CountsAt(w: Window, t: int): map<int, int> { map i | i in w.ms :: BuiltNow(w, i, t) }
  function BatchMap(w: Window, t: int): map<int, seq<Batch>> { map i | i in w.ms :: BatchesTo(w, i, t) }

  /** The accumulators of the simulation. */
  datatype Sim = Sim(
    totalMilliIsu: int, totalPower: int, itemPower: map<int, int>, itemBuilt: map<int, int>,
    schedule: seq<Point>, building: map<int, seq<Batch>>, onSale: map<int, int>)

  function SimAt(w: Window, needs: map<int, int>, t: int): Sim
  {
    Sim(BalanceNow(w, t), PowerNow(w, t), PowersAt(w, t), CountsAt(w, t), ScheduleTo(w, t), BatchMap(w, t),
      OnSaleMap(w, needs, t))
  }

  lemma TickMaps(w: Window, t: int)
    requires w.start < t
    ensures PowersAt(w, t) == WithPower(w.ms, PowersAt(w, t - 1), BuysAt(w, t))
    ensures CountsAt(w, t) == WithCounts(CountsAt(w, t - 1), BuysAt(w, t))
    ensures t !in w.buys ==> PowersAt(w, t) == PowersAt(w, t - 1) && CountsAt(w, t) == CountsAt(w, t - 1)
  {
    SameTable(PowersAt(w, t), WithPower(w.ms, PowersAt(w, t - 1), BuysAt(w, t)));
    SameTable(CountsAt(w, t), WithCounts(CountsAt(w, t - 1), BuysAt(w, t)));
    if t !in w.buys {
      SameTable(PowersAt(w, t), PowersAt(w, t - 1));
      SameTable(CountsAt(w, t), CountsAt(w, t - 1));
    }
  }

  lemma TickBatches(w: Window, t: int, updated: set<int>)
    requires w.start < t
    requires updated == set b | b in BuysAt(w, t) :: b.item
    ensures BatchMap(w, t) == WithBatches(updated, t, PowersAt(w, t), CountsAt(w, t), BatchMap(w, t - 1))
  {
    forall i | i in w.ms
      ensures BatchesTo(w, i, t) == if i in updated
        then BatchesTo(w, i, t - 1) + [Batch(t, GetOr(CountsAt(w, t), i, 0), GetOr(PowersAt(w, t), i, 0))]
          else BatchesTo(w, i, t - 1)
    {
      assert BuildsAt(w, i, t) <==> i in updated;
    }
    SameTable(BatchMap(w, t), WithBatches(updated, t, PowersAt(w, t), CountsAt(w, t), BatchMap(w, t - 1)));
  }

  lemma TickOnSale(w: Window, needs: map<int, int>, t: int)
    requires w.start < t
    ensures OnSaleMap(w, needs, t) == WithOnSale(needs, BalanceNow(w, t), t, OnSaleMap(w, needs, t - 1))
  {
    SameTable(OnSaleMap(w, needs, t), WithOnSale(needs, BalanceNow(w, t), t, OnSaleMap(w, needs, t - 1)));
  }

  /** The purchases dated t, if there are any. */
  method TickBuys(w: Window, t: int, power0: int, itemPower0: map<int, int>, itemBuilt0: map<int, int>,
                  building0: map<int, seq<Batch>>)
    returns (power: int, itemPower: map<int, int>, itemBuilt: map<int, int>, building: map<int, seq<Batch>>)
    requires KnownWindow(w) && w.start < t
    requires power0 == PowerNow(w, t - 1) && itemPower0 == PowersAt(w, t - 1) && itemBuilt0 == CountsAt(w, t - 1)
      && building0 == BatchMap(w, t - 1)
    ensures power == PowerNow(w, t) && itemPower == PowersAt(w, t) && itemBuilt == CountsAt(w, t)
      && building == BatchMap(w, t)
  {
    TickMaps(w, t);
    if t in w.buys {
      var updatedId;
      power, itemPower, itemBuilt, updatedId := ApplyBuys(w.ms, w.buys[t], power0, itemPower0, itemBuilt0);
      building := PushBatches(updatedId, t, itemPower, itemBuilt, building0);
      TickBatches(w, t, updatedId);
    } else {
      power, itemPower, itemBuilt, building := power0, itemPower0, itemBuilt0, building0;
      forall i | i in w.ms ensures BatchesTo(w, i, t) == BatchesTo(w, i, t - 1) {
        assert BuysAt(w, t) == [];
      }
      SameTable(building, BatchMap(w, t));
    }
  }

  /** One millisecond of the simulation. */
  method Tick(w: Window, needs: map<int, int>, t: int, s: Sim) returns (r: Sim)
    requires KnownWindow(w) && w.start < t && s == SimAt(w, needs, t - 1)
    ensures r == SimAt(w, needs, t)
  {
    var totalMilliIsu := s.totalMilliIsu + s.totalPower;
    if t in w.adds {
      totalMilliIsu := totalMilliIsu + 1000 * w.adds[t];
    }
    var totalPower, itemPower, itemBuilt,
      building := TickBuys(w, t, s.totalPower, s.itemPower, s.itemBuilt, s.building);
    assert totalMilliIsu == BalanceNow(w, t);
    var schedule := if t in w.adds || t in w.buys then s.schedule + [Point(t, totalMilliIsu, totalPower)]
      else s.schedule;
    assert schedule == ScheduleTo(w, t);
    var onSale := MarkOnSale(needs, totalMilliIsu, t, s.onSale);
    TickOnSale(w, needs, t);
    r := Sim(totalMilliIsu, totalPower, itemPower, itemBuilt, schedule, building, onSale);
  }

  method Simulate(w: Window, needs: map<int, int>, onSale0: map<int, int>)
    returns (schedule: seq<Point>, building: map<int, seq<Batch>>, onSale: map<int, int>)
    requires KnownWindow(w) && onSale0 == OnSaleMap(w, needs, w.start)
    ensures schedule == ScheduleTo(w, Horizon(w))
    ensures building == BatchMap(w, Horizon(w))
    ensures onSale == OnSaleMap(w, needs, Horizon(w))
  {
    var s := Sim(w.base, w.power, w.itemPower, w.itemBuilt, [Point(w.start, w.base, w.power)], map i | i in w.ms ::
      [], onSale0);
    var t := w.start;
    assert PowersAt(w, t) == w.itemPower;
    assert CountsAt(w, t) == w.itemBuilt;
    assert BatchMap(w, t) == s.building;
    while t < w.start + 1000
      invariant w.start <= t <= w.start + 1000
      invariant s == SimAt(w, needs, t)
    {
      t := t + 1;
      s := Tick(w, needs, t, s);
    }
    schedule, building, onSale := s.schedule, s.building, s.onSale;
  }

  // ---- The whole calculation ------------------------------------------------------------------------------

  method ListItem(w: Window, id: int, bought: nat, batches: seq<Batch>) returns (item: ItemStatus)
    requires id in w.itemPower && id in w.itemBuilt && batches == BatchesTo(w, id, Horizon(w))
    ensures item == ItemView(w, id, bought)
  {
    item := ItemStatus(id, bought, w.itemBuilt[id], Big2Exp(Price(w.ms, id, bought + 1)), Big2Exp(w.itemPower[id]),
      RoundBatches(batches));
  }

  function Views(w: Window, bought: map<int, nat>, ids: seq<int>): seq<ItemStatus>
  {
    if |ids| == 0 then []
    else Views(w, bought, ids[..|ids| - 1]) + [ItemView(w, ids[|ids| - 1], GetOr(bought, ids[|ids| - 1], 0))]
  }

  method ListItems(w: Window, bought: map<int, nat>, building: map<int, seq<Batch>>) returns (items: seq<ItemStatus>)
    requires forall i :: i in w.ms ==> i in w.itemPower && i in w.itemBuilt && i in bought && i in building
    requires forall i :: i in w.ms ==> building[i] == BatchesTo(w, i, Horizon(w))
    ensures ListsItems(items, w, bought)
  {
    var ids := Listing(w.ms.Keys);
    items := [];
    for k := 0 to |ids|
      invariant items == Views(w, bought, ids[..k])
    {
      var id := ids[k];
      assert id in ids;
      assert ids[..k + 1][..k] == ids[..k];
      var item := ListItem(w, id, bought[id], building[id]);
      items := items + [item];
    }
    assert ids[..|ids|] == ids;
    ViewsAreListed(ids, w, bought);
  }

  lemma {:induction false} ViewsInOrder(w: Window, bought: map<int, nat>, ids: seq<int>, k: nat)
    ensures |Views(w, bought, ids)| == |ids|
    ensures k < |ids| ==> Views(w, bought, ids)[k] == ItemView(w, ids[k], GetOr(bought, ids[k], 0))
  {
    if |ids| > 0 {
      ViewsInOrder(w, bought, ids[..|ids| - 1], k);
    }
  }

  lemma ViewsAreListed(ids: seq<int>, w: Window, bought: map<int, nat>)
    requires Distinct(ids) && forall i :: i in ids <==> i in w.ms.Keys
    ensures ListsItems(Views(w, bought, ids), w, bought)
  {
    var items := Views(w, bought, ids);
    ViewsInOrder(w, bought, ids, 0);
    forall k | 0 <= k < |items|
      ensures items[k] == ItemView(w, ids[k], GetOr(bought, ids[k], 0)) && items[k].itemId == ids[k] && ids[k] in w.ms
    {
      ViewsInOrder(w, bought, ids, k);
      assert ids[k] in ids;
    }
    forall i | i in w.ms ensures exists k :: 0 <= k < |items| && items[k].itemId == i {
      assert i in ids;
      var k :| 0 <= k < |ids| && ids[k] == i;
      assert items[k].itemId == i;
    }
  }

  method ListTimes(m: map<int, int>) returns (list: seq<OnSale>)
    ensures ListsTimes(list, m)
  {
    var ids := Listing(m.Keys);
    list := [];
    for k := 0 to |ids|
      invariant |list| == k
      invariant forall j :: 0 <= j < k ==> ids[j] in m && list[j] == OnSale(ids[j], m[ids[j]])
    {
      assert ids[k] in ids;
      list := list + [OnSale(ids[k], m[ids[k]])];
    }
    forall i | i in m ensures exists k :: 0 <= k < |list| && list[k].itemId == i {
      assert i in ids;
      var k :| 0 <= k < |ids| && ids[k] == i;
      assert list[k].itemId == i;
    }
  }

  method ListAdds(m: map<int, int>) returns (list: seq<Adding>)
    ensures ListsAdds(list, m)
  {
    var times := Listing(m.Keys);
    list := [];
    for k := 0 to |times|
      invariant |list| == k
      invariant forall j :: 0 <= j < k ==> times[j] in m && list[j] == Adding(times[j], m[times[j]])
    {
      assert times[k] in times;
      list := list + [Adding(times[k], m[times[k]])];
    }
    forall t | t in m ensures exists k :: 0 <= k < |list| && list[k].time == t {
      assert t in times;
      var k :| 0 <= k < |times| && times[k] == t;
      assert list[k].time == t;
    }
  }

  /** The window as the loops open it. */
  function ReadWindow(ms: Masters, adding: seq<Adding>, buying: seq<Buying>, c: int): Window
  {
    var books := BooksRead(ms, buying, c);
    Window(ms, c, 1000 * Sum(adding, IsuBy(c)) + books.milliIsu, books.totalPower, books.itemPower, books.itemBuilt,
           FutureAdds(adding, c), books.buyingAt)
  }

  /** st is what calcStatus makes of the rows in the order in which they are listed. */
  ghost predicate IsReading(st: GameStatus, ms: Masters, adding: seq<Adding>, buying: seq<Buying>, c: int)
  {
    && Shows(st, ReadWindow(ms, adding, buying, c), BoughtMap(ms, buying))
    && ListsAdds(st.adding, FutureAdds(adding, c))
  }

  lemma WindowIsKnown(ms: Masters, adding: seq<Adding>, buying: seq<Buying>, c: int)
    requires KnownItems(ms, buying)
    ensures KnownWindow(ReadWindow(ms, adding, buying, c))
  {
    var w := ReadWindow(ms, adding, buying, c);
    SameIds(w.itemPower.Keys, ms.Keys);
    SameIds(w.itemBuilt.Keys, ms.Keys);
    forall t, b | t in w.buys && b in w.buys[t] ensures b.item in ms {
      FutureBuysAt(buying, c, t);
      assert b in Where(buying, DatedAt(t));
    }
  }

  /** Rows listed at their ordinals are read as the tables' window. */
  lemma ReadsTablesRight(ms: Masters, adding: seq<Adding>, buying: seq<Buying>, c: int)
    requires AtOrdinals(buying, c)
    ensures ReadWindow(ms, adding, buying, c) == WindowOf(ms, adding, buying, c)
  {
    OrdinalsReadRight(ms, buying, c);
    var v, w := ReadWindow(ms, adding, buying, c), WindowOf(ms, adding, buying, c);
    SameTable(v.itemPower, w.itemPower);
    SameTable(v.itemBuilt, w.itemBuilt);
  }

  /** The two loops over the tables' rows. */
  method OpenWindow(c: int, ms: Masters, adding: seq<Adding>, buying: seq<Buying>)
    returns (w: Window, bought: map<int, nat>)
    requires KnownItems(ms, buying)
    ensures w == ReadWindow(ms, adding, buying, c) && bought == BoughtMap(ms, buying)
  {
    var added, addingAt := ReadAddings(c, adding);
    var books := ReadBuyings(c, ms, buying);
    w := Window(ms, c, added + books.milliIsu, books.totalPower, books.itemPower, books.itemBuilt, addingAt,
      books.buyingAt);
    bought := books.itemBought;
  }

  /** Simulates the window and lists what it shows. */
  method ViewWindow(w: Window, bought: map<int, nat>) returns (st: GameStatus)
    requires KnownWindow(w) && bought.Keys == w.ms.Keys
    ensures Shows(st, w, bought) && ListsAdds(st.adding, w.adds)
  {
    var needs := Needs(w.ms, bought);
    var onSale0 := MarkOnSale(needs, w.base, 0, map[]);
    SameTable(onSale0, OnSaleMap(w, needs, w.start));
    var schedule, building, onSale := Simulate(w, needs, onSale0);
    var items := ListItems(w, bought, building);
    var times := ListTimes(onSale);
    var adds := ListAdds(w.adds);
    st := GameStatus(0, adds, RoundSchedule(schedule), items, times);
  }

  /** Whatever order the rows are listed in; at their ordinals, the status is the tables' own. */
  method CalcStatus(currentTime: int, ms: Masters, adding: seq<Adding>, buying: seq<Buying>) returns (st: GameStatus)
    requires KnownItems(ms, buying)
    ensures IsReading(st, ms, adding, buying, currentTime)
    ensures AtOrdinals(buying, currentTime) ==> IsStatusOf(st, ms, adding, buying, currentTime)
  {
    var w, bought := OpenWindow(currentTime, ms, adding, buying);
    WindowIsKnown(ms, adding, buying, currentTime);
    SameIds(bought.Keys, ms.Keys);
    st := ViewWindow(w, bought);
    if AtOrdinals(buying, currentTime) {
      ReadsTablesRight(ms, adding, buying, currentTime);
    }
  }
}
