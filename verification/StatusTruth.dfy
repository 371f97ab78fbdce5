/** What a status says, in terms of the room's tables alone. */
module StatusTruth {
  import opened Bracketing
  import opened Common
  import opened Exponents
  import opened Ledger
  import opened Rows
  import opened Status
  import opened Windows

  // ---- The schedule -------------------------------------------------------------------------------------------------

  predicate RowDated(adding: seq<Adding>, buying: seq<Buying>, t: int)
  {
    (exists a :: a in adding && a.time == t) || exists b :: b in buying && b.time == t
  }

  lemma EventsAreRows(ms: Masters, adding: seq<Adding>, buying: seq<Buying>, c: int, t: int)
    requires UniqueTimes(adding) && c < t
    ensures EventAt(WindowOf(ms, adding, buying, c), t) <==> RowDated(adding, buying, t)
  {
    FutureAddsAt(adding, c, t);
    FutureBuysAt(buying, c, t);
    if RowDated(adding, buying, t) {
      if exists a :: a in adding && a.time == t {
        var a :| a in adding && a.time == t;
        var k :| 0 <= k < |adding| && adding[k] == a;
      } else {
        var b :| b in buying && b.time == t;
        var k :| 0 <= k < |buying| && buying[k] == b;
      }
    }
  }

  /** One entry of a schedule against the tables. */
  predicate EntryIsTrue(ms: Masters, adding: seq<Adding>, buying: seq<Buying>, e: ScheduleEntry)
  {
    && e.milliIsu == Big2Exp(Balance(ms, adding, buying, e.time))
    && e.totalPower == Big2Exp(TotalPower(ms, buying, e.time))
  }

  /**
   The schedule starts at c; its times rise and are, after c, those of the rows of the next second; and every entry
   shows the balance and the total power of its time.
   */
  lemma ScheduleIsTrue(ms: Masters, st: GameStatus, adding: seq<Adding>, buying: seq<Buying>, c: int)
    requires UniqueTimes(adding) && IsStatusOf(st, ms, adding, buying, c)
    ensures |st.schedule| > 0 && st.schedule[0].time == c
    ensures forall k :: 0 < k < |st.schedule| ==> st.schedule[k - 1].time < st.schedule[k].time
    ensures forall k :: 0 <= k < |st.schedule| ==>
      c <= st.schedule[k].time <= c + 1000 && EntryIsTrue(ms, adding, buying, st.schedule[k])
    ensures forall t :: c < t <= c + 1000 ==>
      (RowDated(adding, buying, t) <==> exists k :: 0 <= k < |st.schedule| && st.schedule[k].time == t)
  {
    var w := WindowOf(ms, adding, buying, c);
    var ps := ScheduleTo(w, c + 1000);
    hide RoundPoint, ListsItems, ListsTimes, ListsAdds, EntryIsTrue, WindowOf, ScheduleTo, RowDated;
    ShownSchedule(ms, st, adding, buying, c);
    ScheduleIsExact(w, c + 1000);
    WindowStarts(ms, adding, buying, c);
    forall k | 0 <= k < |ps|
      ensures RoundPoint(ps[k]).time == ps[k].time && EntryIsTrue(ms, adding, buying, RoundPoint(ps[k]))
    {
      PointIsTrue(ms, adding, buying, c, ps[k]);
    }
    forall t | c < t <= c + 1000
      ensures RowDated(adding, buying, t) <==> exists k :: 0 <= k < |st.schedule| && st.schedule[k].time == t
    {
      EventsAreRows(ms, adding, buying, c, t);
      EventsAreListed(ps, w, c, t);
    }
  }

  lemma WindowStarts(ms: Masters, adding: seq<Adding>, buying: seq<Buying>, c: int)
    ensures WindowOf(ms, adding, buying, c).start == c
  {
  }

  lemma ShownSchedule(ms: Masters, st: GameStatus, adding: seq<Adding>, buying: seq<Buying>, c: int)
    requires IsStatusOf(st, ms, adding, buying, c)
    ensures st.schedule == RoundSchedule(ScheduleTo(WindowOf(ms, adding, buying, c), c + 1000))
    ensures |st.schedule| > 0 && st.schedule[0].time == c
    ensures ScheduleTo(WindowOf(ms, adding, buying, c), c + 1000)[0].time == c
  {
    StartsAt(ms, st, adding, buying, c);
  }

  lemma PointIsTrue(ms: Masters, adding: seq<Adding>, buying: seq<Buying>, c: int, p: Point)
    requires UniqueTimes(adding) && c <= p.time && p == PointAt(WindowOf(ms, adding, buying, c), p.time)
    ensures RoundPoint(p).time == p.time && EntryIsTrue(ms, adding, buying, RoundPoint(p))
  {
    hide Balance, TotalPower, Big2Exp, WindowOf, BalanceNow, PowerNow;
    SimulationIsLedger(ms, adding, buying, c, p.time);
  }

  lemma EventsAreListed(ps: seq<Point>, w: Window, c: int, t: int)
    requires |ps| > 0 && ps[0].time == c && c < t
    requires forall k :: 0 < k < |ps| ==> EventAt(w, ps[k].time)
    requires EventAt(w, t) ==> PointAt(w, t) in ps
    ensures EventAt(w, t) <==> exists k :: 0 <= k < |RoundSchedule(ps)| && RoundSchedule(ps)[k].time == t
  {
    if EventAt(w, t) {
      var k :| 0 <= k < |ps| && ps[k] == PointAt(w, t);
      assert RoundSchedule(ps)[k].time == t;
    }
  }

  // ---- Items --------------------------------------------------------------------------------------------------------

  predicate BatchIsTrue(ms: Masters, buying: seq<Buying>, item: int, b: Building)
  {
    b.countBuilt == Built(buying, item, b.time) && b.power == Big2Exp(ItemPower(ms, buying, item, b.time))
  }

  /** One item of a status against the tables. */
  ghost predicate ItemIsTrue(ms: Masters, buying: seq<Buying>, c: int, x: ItemStatus)
  {
    && x.countBought == Bought(buying, x.itemId) && x.countBuilt == Built(buying, x.itemId, c)
    && x.power == Big2Exp(ItemPower(ms, buying, x.itemId, c))
    && x.nextPrice == Big2Exp(Price(ms, x.itemId, Bought(buying, x.itemId) + 1))
    && (forall p :: 0 <= p < |x.building| ==>
      c < x.building[p].time <= c + 1000 && BatchIsTrue(ms, buying, x.itemId, x.building[p]))
    && (forall p :: 0 < p < |x.building| ==> x.building[p - 1].time < x.building[p].time)
    && (forall t :: c < t <= c + 1000 ==>
      (BuiltThen(buying, x.itemId, t) <==> exists p :: 0 <= p < |x.building| && x.building[p].time == t))
  }

  lemma ViewIsTrue(ms: Masters, adding: seq<Adding>, buying: seq<Buying>, c: int, x: ItemStatus)
    requires x.itemId in ms && x == ItemView(WindowOf(ms, adding, buying, c), x.itemId, Bought(buying, x.itemId))
    ensures ItemIsTrue(ms, buying, c, x)
  {
    var w := WindowOf(ms, adding, buying, c);
    var bs := BatchesTo(w, x.itemId, c + 1000);
    hide Big2Exp, BatchesTo, Built, ItemPower, BuiltThen, BuildsAt, RoundBatch, BatchIsTrue, Price;
    BatchesAreExact(w, x.itemId, c + 1000);
    assert x.building == RoundBatches(bs);
    forall p | 0 <= p < |bs|
      ensures RoundBatch(bs[p]).time == bs[p].time && BatchIsTrue(ms, buying, x.itemId, RoundBatch(bs[p]))
    {
      BatchShown(ms, adding, buying, c, x.itemId, bs[p]);
    }
    forall t | c < t <= c + 1000
      ensures BuiltThen(buying, x.itemId, t) <==> exists p :: 0 <= p < |x.building| && x.building[p].time == t
    {
      DatedIsListed(ms, adding, buying, c, x.itemId, bs, t);
    }
  }

  lemma BatchShown(ms: Masters, adding: seq<Adding>, buying: seq<Buying>, c: int, item: int, b: Batch)
    requires item in ms && c <= b.time && b == BatchAt(WindowOf(ms, adding, buying, c), item, b.time)
    ensures RoundBatch(b).time == b.time && BatchIsTrue(ms, buying, item, RoundBatch(b))
  {
    hide WindowOf, Big2Exp, BuiltNow, ItemPowerNow;
    SimulationCounts(ms, adding, buying, c, b.time);
  }

  lemma DatedIsListed(ms: Masters, adding: seq<Adding>, buying: seq<Buying>, c: int, item: int, bs: seq<Batch>, t: int)
    requires c < t <= c + 1000
    requires var w := WindowOf(ms, adding, buying, c);
      && (forall p :: 0 <= p < |bs| ==> BuildsAt(w, item, bs[p].time))
      && (BuildsAt(w, item, t) ==> BatchAt(w, item, t) in bs)
    ensures BuiltThen(buying, item, t) <==> exists p :: 0 <= p < |RoundBatches(bs)| && RoundBatches(bs)[p].time == t
  {
    hide WindowOf;
    BuildsAreRows(ms, adding, buying, c, item, t);
    if BuildsAt(WindowOf(ms, adding, buying, c), item, t) {
      var p :| 0 <= p < |bs| && bs[p] == BatchAt(WindowOf(ms, adding, buying, c), item, t);
      assert RoundBatches(bs)[p].time == t;
    }
  }

  /** Every item is listed once, with its counts, powers and next price, and the builds of the next second. */
  lemma ItemsAreShown(ms: Masters, st: GameStatus, adding: seq<Adding>, buying: seq<Buying>, c: int)
    requires IsStatusOf(st, ms, adding, buying, c)
    ensures forall j, k :: 0 <= j < k < |st.items| ==> st.items[j].itemId != st.items[k].itemId
    ensures forall i :: i in ms <==> exists k :: 0 <= k < |st.items| && st.items[k].itemId == i
    ensures forall k :: 0 <= k < |st.items| ==> ItemIsTrue(ms, buying, c, st.items[k])
  {
    hide ItemIsTrue, ItemView, Bought;
    forall k | 0 <= k < |st.items| ensures ItemIsTrue(ms, buying, c, st.items[k]) {
      ViewIsTrue(ms, adding, buying, c, st.items[k]);
    }
  }

  // ---- Adds and on-sale times ---------------------------------------------------------------------------------------

  /** The adds listed are the rows dated after c, each once. */
  lemma AddsAreShown(ms: Masters, st: GameStatus, adding: seq<Adding>, buying: seq<Buying>, c: int)
    requires UniqueTimes(adding) && IsStatusOf(st, ms, adding, buying, c)
    ensures forall j, k :: 0 <= j < k < |st.adding| ==> st.adding[j] != st.adding[k]
    ensures forall a :: a in st.adding <==> a in adding && c < a.time
  {
    ListedAddsAreRows(adding, c, st.adding);
    forall a | a in adding && c < a.time ensures a in st.adding {
      FutureAddsAt(adding, c, a.time);
      var j :| 0 <= j < |adding| && adding[j] == a;
      var k :| 0 <= k < |st.adding| && st.adding[k].time == a.time;
    }
  }

  /** The next copy of the item is affordable at t. */
  predicate CanPay(ms: Masters, adding: seq<Adding>, buying: seq<Buying>, item: int, t: int)
  {
    1000 * Price(ms, item, Bought(buying, item) + 1) <= Balance(ms, adding, buying, t)
  }

  lemma OnSaleTimeMeans(ms: Masters, adding: seq<Adding>, buying: seq<Buying>, c: int, item: int)
    requires UniqueTimes(adding)
    ensures var o := OnSaleTo(WindowOf(ms, adding, buying, c), Need(ms, item, Bought(buying, item)), c + 1000);
      && (o.None? <==> forall t :: c <= t <= c + 1000 ==> !CanPay(ms, adding, buying, item, t))
      && (CanPay(ms, adding, buying, item, c) ==> o == Some(0))
      && (o.Some? && !CanPay(ms, adding, buying, item, c) ==>
        && c < o.value <= c + 1000 && CanPay(ms, adding, buying, item, o.value)
        && forall t :: c <= t < o.value ==> !CanPay(ms, adding, buying, item, t))
  {
    var w, need := WindowOf(ms, adding, buying, c), Need(ms, item, Bought(buying, item));
    hide OnSaleTo, Balance, BalanceNow;
    OnSaleIsFirst(w, need, c + 1000);
    assert BalanceNow(w, c) == w.base by { OpensAtBase(w); }
    forall t | c <= t ensures need <= BalanceNow(w, t) <==> CanPay(ms, adding, buying, item, t) {
      SimulationIsLedger(ms, adding, buying, c, t);
    }
    var o := OnSaleTo(w, need, c + 1000);
    if o.None? {
      forall t | c <= t <= c + 1000 ensures !CanPay(ms, adding, buying, item, t) {
        assert BalanceNow(w, t) < need;
      }
    } else if CanPay(ms, adding, buying, item, c) {
      assert need <= w.base;
    } else {
      assert need <= BalanceNow(w, o.value) && CanPay(ms, adding, buying, item, o.value);
      forall t | c <= t < o.value ensures !CanPay(ms, adding, buying, item, t) {
        assert BalanceNow(w, t) < need;
      }
    }
  }

  lemma OpensAtBase(w: Window)
    ensures BalanceNow(w, w.start) == w.base
  {
  }

  lemma SaleIsListed(list: seq<OnSale>, w: Window, needs: map<int, int>, i: int)
    requires ListsTimes(list, OnSaleMap(w, needs, Horizon(w))) && i in needs
    ensures (exists k :: 0 <= k < |list| && list[k].itemId == i) <==> OnSaleTo(w, needs[i], Horizon(w)).Some?
  {
    assert i in OnSaleMap(w, needs, Horizon(w)) <==> OnSaleTo(w, needs[i], Horizon(w)).Some?;
  }

  /**
   An item is on sale from 0 if the next copy is affordable at c, else from the first moment of the next second at
   which it is; and it is listed, once, exactly if there is such a moment.
   */
  lemma SalesAreTrue(ms: Masters, st: GameStatus, adding: seq<Adding>, buying: seq<Buying>, c: int)
    requires UniqueTimes(adding) && IsStatusOf(st, ms, adding, buying, c)
    ensures forall j, k :: 0 <= j < k < |st.onSale| ==> st.onSale[j].itemId != st.onSale[k].itemId
    ensures forall i :: i in ms ==>
      ((exists k :: 0 <= k < |st.onSale| && st.onSale[k].itemId == i)
        <==> exists t :: c <= t <= c + 1000 && CanPay(ms, adding, buying, i, t))
    ensures forall k :: 0 <= k < |st.onSale| ==>
      var o := st.onSale[k];
      && o.itemId in ms
      && if CanPay(ms, adding, buying, o.itemId, c) then o.time == 0
         else
           && c < o.time <= c + 1000 && CanPay(ms, adding, buying, o.itemId, o.time)
           && forall t :: c <= t < o.time ==> !CanPay(ms, adding, buying, o.itemId, t)
  {
    var w, needs := WindowOf(ms, adding, buying, c), Needs(ms, BoughtMap(ms, buying));
    hide CanPay, OnSaleTo, ListsItems, ListsAdds, Bought, Need;
    forall i | i in ms ensures i in needs && needs[i] == Need(ms, i, Bought(buying, i)) {
    }
    forall i | i in ms
      ensures (exists k :: 0 <= k < |st.onSale| && st.onSale[k].itemId == i)
        <==> exists t :: c <= t <= c + 1000 && CanPay(ms, adding, buying, i, t)
    {
      SaleIsListed(st.onSale, w, needs, i);
      OnSaleTimeMeans(ms, adding, buying, c, i);
    }
    forall k | 0 <= k < |st.onSale|
      ensures st.onSale[k].itemId in ms && OnSaleTo(w, needs[st.onSale[k].itemId], c + 1000) == Some(st.onSale[k].time)
    {
    }
    forall i | i in ms {
      OnSaleTimeMeans(ms, adding, buying, c, i);
    }
  }
}
