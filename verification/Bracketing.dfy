/** Every status a room computes from tables the log explains lies between the fast validator's two windows. */
module Bracketing {
  import opened BenchCheck
  import opened BenchLog
  import opened Common
  import opened EventJump
  import opened Exponents
  import opened Format
  import opened Ledger
  import opened OnSaleSearch
  import opened Rows
  import opened Soundness
  import opened Status
  import opened StatusCheck
  import opened StatusReading
  import opened Sums
  import opened TableReading
  import opened Windows

  /** A status computed from sound tables. */
  ghost predicate Drawn(ms: Masters, st: GameStatus, adding: seq<Adding>, buying: seq<Buying>, c: int)
  {
    TablesOk(ms, adding, buying) && IsStatusOf(st, ms, adding, buying, c) && 0 <= c
  }

  /** And solvent at c. */
  ghost predicate Computed(ms: Masters, st: GameStatus, adding: seq<Adding>, buying: seq<Buying>, c: int)
  {
    Drawn(ms, st, adding, buying, c) && 0 <= Balance(ms, adding, buying, c)
  }

  /** No purchase is dated beyond the window. */
  ghost predicate WithinWindow(buying: seq<Buying>, c: int) { forall b :: b in buying ==> b.time <= c + 1000 }

  ghost predicate Timely(buying: seq<Buying>, c: int) { InTimeOrderFrom(buying, c) && WithinWindow(buying, c) }

  lemma StartsAt(ms: Masters, st: GameStatus, adding: seq<Adding>, buying: seq<Buying>, c: int)
    requires IsStatusOf(st, ms, adding, buying, c)
    ensures |st.schedule| > 0 && st.schedule[0].time == c
  {
    var w := WindowOf(ms, adding, buying, c);
    assert st.schedule[0] == RoundPoint(ScheduleTo(w, Horizon(w))[0]);
  }

  // ---- The log check ------------------------------------------------------------------------------------------------

  lemma ListedAddsAreRows(adding: seq<Adding>, c: int, list: seq<Adding>)
    requires UniqueTimes(adding) && ListsAdds(list, FutureAdds(adding, c))
    ensures forall k :: 0 <= k < |list| ==> list[k] in adding && c < list[k].time
  {
    forall k | 0 <= k < |list| ensures list[k] in adding && c < list[k].time {
      FutureAddsAt(adding, c, list[k].time);
      var j :| 0 <= j < |adding| && adding[j].time == list[k].time;
      assert adding[j] == list[k];
    }
  }

  /** An item of a genuine status, in terms of the table. */
  ghost predicate TrueItem(x: ItemStatus, buying: seq<Buying>, c: int)
  {
    TrueCounts(x, buying, c) && TrueBuilding(x.building, buying, x.itemId, c)
  }

  predicate TrueCounts(x: ItemStatus, buying: seq<Buying>, c: int)
  {
    x.countBought == Bought(buying, x.itemId) && x.countBuilt == Built(buying, x.itemId, c)
  }

  lemma CopyExplained(d: Dicts, buying: seq<Buying>, c: int, x: ItemStatus, k: nat)
    requires InOrdinalOrder(buying) && BuysExplained(d, buying, c) && 1 <= k <= Bought(buying, x.itemId)
    ensures RowExplained(d, Buying(x.itemId, k, RowTime(buying, x.itemId, k)))
  {
    RowOfCopy(buying, x.itemId, k);
  }

  lemma TrueItemFits(d: Dicts, buying: seq<Buying>, c: int, x: ItemStatus)
    requires InOrdinalOrder(buying) && BuysExplained(d, buying, c)
    requires TrueItem(x, buying, c) && Timely(buying, c)
    ensures AllRequested(d, x) && ItemFits(d, c, x)
  {
    BuiltAtMostBought(buying, x.itemId, c);
    forall k: nat | 1 <= k <= x.countBought ensures Requested(d, x, k) {
      CopyExplained(d, buying, c, x, k);
    }
    forall k: nat | 1 <= k <= x.countBuilt ensures HighTime(d)(x.itemId, k) <= c {
      BuiltCopyFits(d, buying, c, x, k);
    }
    forall k: nat | x.countBuilt < k <= x.countBought ensures ComingFits(d, c, x, k) {
      ComingCopyFits(d, buying, c, x, k);
    }
  }

  lemma BuiltCopyFits(d: Dicts, buying: seq<Buying>, c: int, x: ItemStatus, k: nat)
    requires InOrdinalOrder(buying) && BuiltFirst(buying, c) && BuysExplained(d, buying, c)
    requires TrueItem(x, buying, c) && 1 <= k <= x.countBuilt
    ensures HighTime(d)(x.itemId, k) <= c
  {
    BuiltAtMostBought(buying, x.itemId, c);
    CopyExplained(d, buying, c, x, k);
    BuiltMeansDated(buying, x.itemId, k, c);
  }

  lemma ComingCopyFits(d: Dicts, buying: seq<Buying>, c: int, x: ItemStatus, k: nat)
    requires InOrdinalOrder(buying) && BuysExplained(d, buying, c)
    requires TrueItem(x, buying, c) && Timely(buying, c)
    requires x.countBuilt < k <= x.countBought
    ensures ComingFits(d, c, x, k)
  {
    CopyExplained(d, buying, c, x, k);
    BuiltMeansDated(buying, x.itemId, k, c);
    RowOfCopy(buying, x.itemId, k);
    WalkFindsTime(x, buying, c, k);
  }

  lemma ItemsAreTrue(ms: Masters, adding: seq<Adding>, buying: seq<Buying>, c: int, items: seq<ItemStatus>)
    requires ListsItems(items, WindowOf(ms, adding, buying, c), BoughtMap(ms, buying))
    ensures forall x :: x in items ==> TrueItem(x, buying, c)
  {
    ListedCountsAreRight(ms, adding, buying, c, items);
    forall x | x in items ensures TrueItem(x, buying, c) {
      var k :| 0 <= k < |items| && items[k] == x;
      ViewHasTrueBuilding(ms, adding, buying, c, x.itemId, x.countBought);
    }
  }

  lemma GenuineFitsLog(ms: Masters, st: GameStatus, d: Dicts, adding: seq<Adding>, buying: seq<Buying>, c: int)
    requires Drawn(ms, st, adding, buying, c) && Timely(buying, c) && Explains(d, adding, buying, c)
    ensures |st.schedule| > 0 && FitsLog(st, d)
  {
    StartsAt(ms, st, adding, buying, c);
    ListedAddsAreRows(adding, c, st.adding);
    ItemsAreTrue(ms, adding, buying, c, st.items);
    forall k | 0 <= k < |st.items| ensures AllRequested(d, st.items[k]) && ItemFits(d, c, st.items[k]) {
      assert st.items[k] in st.items;
      TrueItemFits(d, buying, c, st.items[k]);
    }
  }

  // ---- The two windows ----------------------------------------------------------------------------------------------

  lemma {:induction false} FlattenSame(items: seq<ItemStatus>, g: ItemStatus -> seq<Buying>,
                                       h: ItemStatus -> seq<Buying>)
    requires forall x :: x in items ==> g(x) == h(x)
    ensures Flatten(items, g) == Flatten(items, h)
  {
    if |items| > 0 {
      FlattenSame(items[..|items| - 1], g, h);
      assert items[|items| - 1] in items;
    }
  }

  lemma ComingIsTrue(buying: seq<Buying>, c: int, items: seq<ItemStatus>)
    requires InOrdinalOrder(buying) && Timely(buying, c)
    requires forall x :: x in items ==> TrueItem(x, buying, c)
    ensures Flatten(items, WalkPart()) == Flatten(items, FuturePart(RowTimes(buying)))
  {
    forall x | x in items ensures WalkPart()(x) == FuturePart(RowTimes(buying))(x) {
      BuiltAtMostBought(buying, x.itemId, c);
      WalkRowsAreRows(x, buying, c, x.countBought);
    }
    FlattenSame(items, WalkPart(), FuturePart(RowTimes(buying)));
  }

  lemma TimesBracket(d: Dicts, buying: seq<Buying>, c: int, items: seq<ItemStatus>)
    requires InOrdinalOrder(buying) && BuiltFirst(buying, c) && BuysExplained(d, buying, c)
    requires forall x :: x in items ==> TrueItem(x, buying, c)
    ensures NoLater(items, HighTime(d), RowTimes(buying)) && NoLater(items, RowTimes(buying), LowTime(d, c))
  {
    forall x: ItemStatus, k: nat | x in items && 1 <= k <= x.countBuilt
      ensures HighTime(d)(x.itemId, k) <= RowTime(buying, x.itemId, k) <= LowTime(d, c)(x.itemId, k)
    {
      BuiltAtMostBought(buying, x.itemId, c);
      CopyExplained(d, buying, c, x, k);
      BuiltMeansDated(buying, x.itemId, k, c);
    }
  }

  /** The window a reader with the true times would build. */
  ghost function TrueReading(ms: Masters, st: GameStatus, adding: seq<Adding>, buying: seq<Buying>, c: int): Window
    requires |st.schedule| > 0
  {
    StatusWindow(ms, st, Sum(adding, IsuBy(c)), Flatten(st.items, BuiltPart(RowTimes(buying))),
      Flatten(st.items, FuturePart(RowTimes(buying))))
  }

  lemma TrueReadingIsWindow(ms: Masters, st: GameStatus, adding: seq<Adding>, buying: seq<Buying>, c: int)
    requires TablesOk(ms, adding, buying) && BuiltFirst(buying, c) && IsStatusOf(st, ms, adding, buying, c)
    ensures |st.schedule| > 0
    ensures var v, w := WindowOf(ms, adding, buying, c), TrueReading(ms, st, adding, buying, c);
      Alike(v, w) && v.base == w.base
  {
    StartsAt(ms, st, adding, buying, c);
    ListedCountsAreRight(ms, adding, buying, c, st.items);
    TableHoldsCopies(ms, buying, st.items, c);
    TableCountsBuilt(ms, buying, st.items, c);
    ListedAddsAre(st.adding, FutureAdds(adding, c));
    ReadingIsWindow(ms, st, adding, buying, RowTimes(buying), c);
  }

  lemma OpeningsBracket(ms: Masters, d: Dicts, adding: seq<Adding>, buying: seq<Buying>, c: int,
                        items: seq<ItemStatus>, future: seq<Buying>)
    requires UniqueTimes(adding) && AddsExplained(d, adding, c)
    requires NoLater(items, HighTime(d), RowTimes(buying)) && NoLater(items, RowTimes(buying), LowTime(d, c))
    ensures Opening(ms, c, DictSum(d.adds, c), Flatten(items, BuiltPart(LowTime(d, c))), future)
         <= Opening(ms, c, Sum(adding, IsuBy(c)), Flatten(items, BuiltPart(RowTimes(buying))), future)
         <= Opening(ms, c, DictSum(d.adds, c) + DictSum(d.addsOpen, c), Flatten(items, BuiltPart(HighTime(d))), future)
  {
    LoggedIsuBrackets(d, adding, c);
    EarlierProducesMore(ms, c, items, HighTime(d), RowTimes(buying));
    EarlierProducesMore(ms, c, items, RowTimes(buying), LowTime(d, c));
    TimesDoNotMatter(ms, items, HighTime(d), RowTimes(buying));
    TimesDoNotMatter(ms, items, RowTimes(buying), LowTime(d, c));
  }

  lemma ReadsBracket(ms: Masters, st: GameStatus, d: Dicts, adding: seq<Adding>, buying: seq<Buying>, c: int)
    requires Drawn(ms, st, adding, buying, c) && Timely(buying, c) && Explains(d, adding, buying, c)
    ensures Coming(st) == Flatten(st.items, FuturePart(RowTimes(buying)))
    ensures NoLater(st.items, HighTime(d), RowTimes(buying)) && NoLater(st.items, RowTimes(buying), LowTime(d, c))
  {
    ItemsAreTrue(ms, adding, buying, c, st.items);
    ComingIsTrue(buying, c, st.items);
    TimesBracket(d, buying, c, st.items);
  }

  /** Both windows carry exactly the room's events, and their opening balances lie on either side of the true one. */
  lemma WindowsBracket(ms: Masters, st: GameStatus, d: Dicts, adding: seq<Adding>, buying: seq<Buying>, c: int)
    requires Drawn(ms, st, adding, buying, c) && Timely(buying, c) && Explains(d, adding, buying, c)
    ensures |st.schedule| > 0
    ensures Alike(WindowOf(ms, adding, buying, c), LowWindow(ms, st, d))
    ensures LowWindow(ms, st, d).base <= Balance(ms, adding, buying, c) <= HighBase(ms, st, d)
  {
    OrderKeepsBuiltFirst(buying, c, c);
    hide Alike, NoLater, BuysExplained, InOrdinalOrder, InTimeOrderFrom, BuiltFirst, Shows, ListsAdds;
    StartsAt(ms, st, adding, buying, c);
    ReadsBracket(ms, st, d, adding, buying, c);
    TrueReadingIsWindow(ms, st, adding, buying, c);
    OpeningsBracket(ms, d, adding, buying, c, st.items, Coming(st));
    LowIsTrueLowered(ms, st, d, adding, buying, c);
    AlikeRaised(WindowOf(ms, adding, buying, c), TrueReading(ms, st, adding, buying, c), LowWindow(ms, st, d).base);
  }

  lemma AlikeRaised(v: Window, w: Window, base: int)
    requires Alike(v, w)
    ensures Alike(v, Raised(w, base))
  {
  }

  lemma LowIsTrueLowered(ms: Masters, st: GameStatus, d: Dicts, adding: seq<Adding>, buying: seq<Buying>, c: int)
    requires |st.schedule| > 0 && st.schedule[0].time == c
      && Coming(st) == Flatten(st.items, FuturePart(RowTimes(buying)))
    ensures LowWindow(ms, st, d) == Raised(TrueReading(ms, st, adding, buying, c), LowWindow(ms, st, d).base)
  {
    TimesDoNotMatter(ms, st.items, RowTimes(buying), LowTime(d, c));
  }

  /** At every millisecond of the window the true balance lies between the two the validator computes. */
  lemma BalancesBracketTruth(ms: Masters, st: GameStatus, d: Dicts, adding: seq<Adding>, buying: seq<Buying>, c: int,
                             t: int)
    requires Drawn(ms, st, adding, buying, c) && Timely(buying, c) && Explains(d, adding, buying, c) && c <= t
    ensures |st.schedule| > 0
    ensures BalanceNow(LowWindow(ms, st, d), t) <= Balance(ms, adding, buying, t)
      <= BalanceNow(Raised(LowWindow(ms, st, d), HighBase(ms, st, d)), t)
    ensures PowerNow(LowWindow(ms, st, d), t) == TotalPower(ms, buying, t)
  {
    WindowsBracket(ms, st, d, adding, buying, c);
    var v, low := WindowOf(ms, adding, buying, c), LowWindow(ms, st, d);
    AlikeWindows(v, low, t);
    RaisedIsAlike(low, HighBase(ms, st, d));
    AlikeWindows(low, Raised(low, HighBase(ms, st, d)), t);
    SimulationIsLedger(ms, adding, buying, c, t);
  }

  // ---- What the status shows lies between ---------------------------------------------------------------------------

  lemma EntryBetween(v: Window, low: Point, high: Point, p: Point)
    requires low.time == p.time == high.time && low.totalPower == p.totalPower
    requires 0 <= p.milliIsu && low.milliIsu <= p.milliIsu <= high.milliIsu
    ensures Between(RoundPoint(p), low, high)
  {
    Big2ExpIsMonotone(AtLeastZero(low.milliIsu), p.milliIsu);
    Big2ExpIsMonotone(p.milliIsu, high.milliIsu);
  }

  lemma ScheduleLiesBetween(v: Window, low: Window, base2: int, t: int)
    requires Growing(v) && 0 <= v.base && v.start <= t
    requires Alike(v, low) && low.base <= v.base <= base2
    ensures NoneNegative(ScheduleTo(Raised(low, base2), t))
    ensures ScheduleBetween(RoundSchedule(ScheduleTo(v, t)), ScheduleTo(low, t), ScheduleTo(Raised(low, base2), t))
  {
    var high := Raised(low, base2);
    AlikeWindows(v, low, t);
    AlikeWindows(v, high, t);
    ScheduleIsExact(v, t);
    var ps := ScheduleTo(v, t);
    forall k | 0 <= k < |ps|
      ensures 0 <= ScheduleTo(high, t)[k].milliIsu
        && Between(RoundPoint(ps[k]), ScheduleTo(low, t)[k], ScheduleTo(high, t)[k])
    {
      BalanceNowGrows(v, v.start, ps[k].time);
      EntryBetween(v, ScheduleTo(low, t)[k], ScheduleTo(high, t)[k], ps[k]);
    }
  }

  lemma ViewsAgree(v: Window, low: Window, item: int, bought: nat)
    requires Alike(v, low)
    ensures ItemView(v, item, bought) == ItemView(low, item, bought)
  {
    AlikeWindows(v, low, v.start + 1000);
  }

  lemma ListedViewsAgree(v: Window, low: Window, items: seq<ItemStatus>, bought: map<int, nat>)
    requires Alike(v, low) && ListsItems(items, v, bought)
    ensures forall k :: 0 <= k < |items| ==> Viewed(low, items[k])
  {
    forall k | 0 <= k < |items| ensures Viewed(low, items[k]) {
      ViewsAgree(v, low, items[k].itemId, items[k].countBought);
    }
  }

  lemma ListedCountsAre(ms: Masters, items: seq<ItemStatus>, buying: seq<Buying>, c: int)
    requires CountsRight(ms, items, buying, c)
    ensures BoughtCounts(items) == BoughtMap(ms, buying)
  {
    CountsAreListed(items);
    SameTable(BoughtCounts(items), BoughtMap(ms, buying));
  }

  lemma TimesLieBetween(v: Window, low: Window, base2: int, need: int, t: int)
    requires 0 <= v.start <= t && Alike(v, low) && low.base <= v.base <= base2
    ensures OnSaleFits(OnSaleTo(v, need, t), OnSaleTo(Raised(low, base2), need, t), OnSaleTo(low, need, t))
  {
    var high := Raised(low, base2);
    forall s | v.start <= s <= t ensures BalanceNow(low, s) <= BalanceNow(v, s) <= BalanceNow(high, s) {
      AlikeWindows(v, low, s);
      AlikeWindows(v, high, s);
    }
    OnSaleIsAntitone(low, v, need, t);
    OnSaleIsAntitone(v, high, need, t);
  }

  lemma OnSaleLiesBetween(st: GameStatus, v: Window, low: Window, base2: int, i: int)
    requires 0 <= v.start && Alike(v, low) && low.base <= v.base <= base2 && i in v.ms
    requires ListsTimes(st.onSale, OnSaleMap(v, Needs(v.ms, BoughtCounts(st.items)), Horizon(v)))
    ensures OnSaleBetween(st, low, Raised(low, base2), i)
  {
    var needs := Needs(v.ms, BoughtCounts(st.items));
    ListedTimesAre(st.onSale, OnSaleMap(v, needs, Horizon(v)));
    MappedTimesFit(v, low, base2, needs, i);
  }

  lemma MappedTimesFit(v: Window, low: Window, base2: int, needs: map<int, int>, i: int)
    requires 0 <= v.start && Alike(v, low) && low.base <= v.base <= base2 && i in needs
    ensures var high := Raised(low, base2);
            OnSaleFits(Lookup(OnSaleMap(v, needs, Horizon(v)), i), Lookup(OnSaleMap(high, needs, Horizon(high)), i),
              Lookup(OnSaleMap(low, needs, Horizon(low)), i))
  {
    TimesLieBetween(v, low, base2, needs[i], Horizon(v));
  }

  lemma WindowsStartAlike(v: Window, w: Window)
    requires Alike(v, w)
    ensures v.ms == w.ms && v.start == w.start
  {
  }

  lemma StatusLiesBetween(ms: Masters, st: GameStatus, adding: seq<Adding>, buying: seq<Buying>, c: int, low: Window,
                          base2: int)
    requires Computed(ms, st, adding, buying, c)
    requires Alike(WindowOf(ms, adding, buying, c), low) && low.base <= Balance(ms, adding, buying, c) <= base2
    ensures LiesBetween(st, low, base2)
  {
    hide InOrdinalOrder,  Alike, ListsItems, ListsTimes, ListsAdds, OnSaleBetween, ScheduleBetween, NoneNegative,
      Viewed, CountsRight;
    var v := WindowOf(ms, adding, buying, c);
    WindowsStartAlike(v, low);
    WindowGrows(ms, adding, buying, c);
    ScheduleLiesBetween(v, low, base2, Horizon(v));
    ListedViewsAgree(v, low, st.items, BoughtMap(ms, buying));
    ListedCountsAreRight(ms, adding, buying, c, st.items);
    ListedCountsAre(ms, st.items, buying, c);
    forall i | i in low.ms ensures OnSaleBetween(st, low, Raised(low, base2), i) {
      OnSaleLiesBetween(st, v, low, base2, i);
    }
  }

  lemma EntriesInWindow(ms: Masters, adding: seq<Adding>, buying: seq<Buying>, c: int, items: seq<ItemStatus>)
    requires ListsItems(items, WindowOf(ms, adding, buying, c), BoughtMap(ms, buying))
    ensures forall x, p :: x in items && 0 <= p < |x.building| ==> x.building[p].time <= c + 1000
  {
    var w := WindowOf(ms, adding, buying, c);
    forall x, p | x in items && 0 <= p < |x.building| ensures x.building[p].time <= c + 1000 {
      BatchesAreExact(w, x.itemId, Horizon(w));
    }
  }

  /** A copy that finds a building entry is dated no later than that entry. */
  lemma FittingCopyIsWithin(d: Dicts, buying: seq<Buying>, c: int, x: ItemStatus, k: nat)
    requires InOrdinalOrder(buying) && InTimeOrderFrom(buying, c) && TrueItem(x, buying, c)
      && FitTo(d, c, x, x.countBought)
    requires 1 <= k <= Bought(buying, x.itemId) && forall p :: 0 <= p < |x.building| ==> x.building[p].time <= c + 1000
    ensures RowTime(buying, x.itemId, k) <= c + 1000
  {
    BuiltMeansDated(buying, x.itemId, k, c);
    if x.countBuilt < k {
      assert ComingFits(d, c, x, k);
      WalkReaches(x.building, x.countBuilt, k);
      BuiltMeansDated(buying, x.itemId, k, x.building[WalkIdx(x.building, x.countBuilt, k)].time);
    }
  }

  lemma FittingMeansWithin(ms: Masters, st: GameStatus, d: Dicts, adding: seq<Adding>, buying: seq<Buying>, c: int)
    requires Drawn(ms, st, adding, buying, c) && InTimeOrderFrom(buying, c) && |st.schedule| > 0 && FitsLog(st, d)
    ensures WithinWindow(buying, c)
  {
    StartsAt(ms, st, adding, buying, c);
    ListedCountsAreRight(ms, adding, buying, c, st.items);
    ItemsAreTrue(ms, adding, buying, c, st.items);
    EntriesInWindow(ms, adding, buying, c, st.items);
    forall b | b in buying ensures b.time <= c + 1000 {
      CopyOfRow(buying, b);
      var k :| 0 <= k < |st.items| && st.items[k].itemId == b.item;
      assert st.items[k] in st.items;
      assert ItemFits(d, c, st.items[k]);
      FittingCopyIsWithin(d, buying, c, st.items[k], b.ordinal);
    }
  }

  /**
   Interval soundness.  If the log explains the tables, then, whichever unanswered requests took effect and
   whenever, the status computed from them lies between the two windows, exactly if no purchase is dated beyond its
   own window.
   */
  lemma GenuineStatusIsAccepted(ms: Masters, st: GameStatus, d: Dicts, adding: seq<Adding>, buying: seq<Buying>, c: int)
    requires Computed(ms, st, adding, buying, c) && InTimeOrderFrom(buying, c) && Explains(d, adding, buying, c)
    ensures |st.schedule| > 0 && (BenchAccepts(ms, st, d) <==> WithinWindow(buying, c))
  {
    StartsAt(ms, st, adding, buying, c);
    if WithinWindow(buying, c) {
      GenuineFitsLog(ms, st, d, adding, buying, c);
      WindowsBracket(ms, st, d, adding, buying, c);
      StatusLiesBetween(ms, st, adding, buying, c, LowWindow(ms, st, d), HighBase(ms, st, d));
    } else if FitsLog(st, d) {
      FittingMeansWithin(ms, st, d, adding, buying, c);
    }
  }

  // ---- The code's verdict, with its searches ------------------------------------------------------------------------

  lemma RaisedGrows(ms: Masters, adding: seq<Adding>, buying: seq<Buying>, c: int, low: Window, base2: int)
    requires UniqueTimes(adding) && NonNegativeIsu(adding) && 0 <= c && Alike(WindowOf(ms, adding, buying, c), low)
    ensures 0 <= low.start && Growing(low) && Growing(Raised(low, base2))
  {
    var v := WindowOf(ms, adding, buying, c);
    WindowGrows(ms, adding, buying, c);
    forall t | t in low.adds && low.start < t ensures 0 <= low.adds[t] {
      assert GetOr(v.adds, t, 0) == GetOr(low.adds, t, 0) && (t in v.adds <==> t in low.adds);
    }
  }

  /** The window with the upper opening balance. */
  ghost function HighWindow(ms: Masters, st: GameStatus, d: Dicts): Window
    requires |st.schedule| > 0
  {
    Raised(LowWindow(ms, st, d), HighBase(ms, st, d))
  }

  /** The price of the next copy of item i, as the status counts the copies. */
  function NextPrice(ms: Masters, st: GameStatus, i: int): int { GetOr(Needs(ms, BoughtCounts(st.items)), i, 0) }

  /** The upper search wraps for no item the status lists as on sale. */
  ghost predicate NoListedWrap(ms: Masters, st: GameStatus, high: Window)
  {
    forall i :: i in ms && i in OnSaleTable(st.onSale) ==> !WindowWraps(high, NextPrice(ms, st, i))
  }

  /** Dropping an on-sale time because its search wraps only matters at the upper balance. */
  lemma DroppedTimeFits(t: Option<int>, earliest: Option<int>, latest: Option<int>, found1: Option<int>,
                        found2: Option<int>, wraps: bool)
    requires OnSaleFits(t, earliest, latest)
    requires found1 == latest || found1.None?
    requires if wraps then earliest.Some? && found2.None? else found2 == earliest
    ensures OnSaleFits(t, found2, found1) <==> (t.Some? ==> !wraps)
  {
  }

  /**
   One item: what the true window shows fits the two searches exactly if the item is not on sale or the upper search
   does not wrap.
   */
  lemma SearchedTimeFits(v: Window, low: Window, base2: int, need: int)
    requires 0 <= v.start && Horizon(v) < INT64_BOUND && Alike(v, low) && low.base <= v.base <= base2
    requires Growing(low) && Growing(Raised(low, base2))
    ensures OnSaleFits(OnSaleTo(v, need, Horizon(v)), Searched(Raised(low, base2), need), Searched(low, need))
      <==> (OnSaleTo(v, need, Horizon(v)).Some? ==> !WindowWraps(Raised(low, base2), need))
  {
    var high := Raised(low, base2);
    WindowsStartAlike(v, low);
    hide Alike, Growing, OnSaleTo, Searched, WindowWraps, OnSaleFits;
    SearchedIsOnSale(low, need);
    SearchedIsOnSale(high, need);
    TimesLieBetween(v, low, base2, need, Horizon(v));
    DroppedTimeFits(OnSaleTo(v, need, Horizon(v)), OnSaleTo(high, need, Horizon(v)), OnSaleTo(low, need, Horizon(v)),
                    Searched(low, need), Searched(high, need), WindowWraps(high, need));
  }

  lemma SearchedItemFits(st: GameStatus, v: Window, low: Window, base2: int, i: int)
    requires 0 <= v.start && Horizon(v) < INT64_BOUND && Alike(v, low) && low.base <= v.base <= base2 && i in v.ms
    requires Growing(low) && Growing(Raised(low, base2))
    requires ListsTimes(st.onSale, OnSaleMap(v, Needs(v.ms, BoughtCounts(st.items)), Horizon(v)))
    ensures SearchedBetween(st, low, Raised(low, base2), i)
      <==> (i in OnSaleTable(st.onSale) ==> !WindowWraps(Raised(low, base2), NextPrice(v.ms, st, i)))
  {
    var needs := Needs(v.ms, BoughtCounts(st.items));
    WindowsStartAlike(v, low);
    ListedTimesAre(st.onSale, OnSaleMap(v, needs, Horizon(v)));
    SearchedTimeFits(v, low, base2, needs[i]);
  }

  lemma SearchesFit(ms: Masters, st: GameStatus, adding: seq<Adding>, buying: seq<Buying>, c: int, low: Window,
                    base2: int)
    requires Drawn(ms, st, adding, buying, c) && c + 1000 < INT64_BOUND
    requires Alike(WindowOf(ms, adding, buying, c), low) && low.base <= Balance(ms, adding, buying, c) <= base2
    ensures (forall i :: i in low.ms ==> SearchedBetween(st, low, Raised(low, base2), i))
      <==> NoListedWrap(ms, st, Raised(low, base2))
  {
    hide InOrdinalOrder,  Alike, ListsItems, ListsTimes, ListsAdds, SearchedBetween, Growing, CountsRight, WindowWraps,
      NextPrice;
    var v := WindowOf(ms, adding, buying, c);
    WindowsStartAlike(v, low);
    RaisedGrows(ms, adding, buying, c, low, base2);
    ListedCountsAreRight(ms, adding, buying, c, st.items);
    ListedCountsAre(ms, st.items, buying, c);
    forall i | i in ms
      ensures SearchedBetween(st, low, Raised(low, base2), i)
        <==> (i in OnSaleTable(st.onSale) ==> !WindowWraps(Raised(low, base2), NextPrice(ms, st, i)))
    {
      SearchedItemFits(st, v, low, base2, i);
    }
  }

  lemma PassesIfLies(st: GameStatus, w: Window, base2: int)
    requires LiesBetween(st, w, base2)
    ensures PassesBetween(st, w, base2) <==> forall i :: i in w.ms ==> SearchedBetween(st, w, Raised(w, base2), i)
  {
  }

  /**
   Interval soundness of the code.  The fast validator passes a status computed from tables the log explains exactly
   if no purchase is dated beyond its window and the upper balance's search wraps for no item the status lists as on
   sale.
   */
  lemma GenuineVerdict(ms: Masters, st: GameStatus, d: Dicts, adding: seq<Adding>, buying: seq<Buying>, c: int)
    requires Computed(ms, st, adding, buying, c) && InTimeOrderFrom(buying, c) && Explains(d, adding, buying, c)
      && c + 1000 < INT64_BOUND
    ensures |st.schedule| > 0
    ensures BenchVerdict(ms, st, d) <==> WithinWindow(buying, c) && NoListedWrap(ms, st, HighWindow(ms, st, d))
  {
    StartsAt(ms, st, adding, buying, c);
    GenuineStatusIsAccepted(ms, st, d, adding, buying, c);
    if WithinWindow(buying, c) {
      WindowsBracket(ms, st, d, adding, buying, c);
      hide Drawn, Explains, Alike, SearchedBetween, NoListedWrap, LiesBetween, PassesBetween;
      PassesIfLies(st, LowWindow(ms, st, d), HighBase(ms, st, d));
      SearchesFit(ms, st, adding, buying, c, LowWindow(ms, st, d), HighBase(ms, st, d));
    } else if FitsLog(st, d) {
      FittingMeansWithin(ms, st, d, adding, buying, c);
    }
  }

  lemma WindowsGrow(ms: Masters, st: GameStatus, d: Dicts, adding: seq<Adding>, buying: seq<Buying>, c: int)
    requires Drawn(ms, st, adding, buying, c) && Timely(buying, c) && Explains(d, adding, buying, c)
    ensures |st.schedule| > 0 && LowWindow(ms, st, d).ms == ms
    ensures 0 <= LowWindow(ms, st, d).start && Growing(LowWindow(ms, st, d)) && Growing(HighWindow(ms, st, d))
  {
    WindowsBracket(ms, st, d, adding, buying, c);
    hide Explains, Timely, Alike, Growing, LowWindow, HighBase;
    RaisedGrows(ms, adding, buying, c, LowWindow(ms, st, d), HighBase(ms, st, d));
    WindowsStartAlike(WindowOf(ms, adding, buying, c), LowWindow(ms, st, d));
  }

  lemma ExactIfNoneWraps(ms: Masters, st: GameStatus, w: Window)
    requires 0 <= w.start && Growing(w)
    ensures SearchIsExact(w, Needs(ms, BoughtCounts(st.items)))
      <==> forall i :: i in ms ==> !WindowWraps(w, NextPrice(ms, st, i))
  {
    hide WindowWraps, Growing;
    var needs := Needs(ms, BoughtCounts(st.items));
    forall i | i in ms ensures i in needs && NextPrice(ms, st, i) == needs[i] {
    }
  }

  /** A genuine status's windows grow, so its searches are exact if none wraps for the prices of its own items. */
  lemma GenuineSearchesAreExact(ms: Masters, st: GameStatus, d: Dicts, adding: seq<Adding>, buying: seq<Buying>, c: int)
    requires Drawn(ms, st, adding, buying, c) && Timely(buying, c) && Explains(d, adding, buying, c)
    ensures |st.schedule| > 0
    ensures SearchesAreExact(ms, st, d) <==>
      forall i :: i in ms ==>
        !WindowWraps(LowWindow(ms, st, d), NextPrice(ms, st, i))
          && !WindowWraps(HighWindow(ms, st, d), NextPrice(ms, st, i))
  {
    WindowsGrow(ms, st, d, adding, buying, c);
    ExactIfNoneWraps(ms, st, LowWindow(ms, st, d));
    ExactIfNoneWraps(ms, st, HighWindow(ms, st, d));
    hide Drawn, Explains, Timely, Growing, WindowWraps, LowWindow, HighBase, SearchIsExact;
  }

  // ---- The "something wrong 2" exit ---------------------------------------------------------------------------------

  /** Unanswered requests leave earliest times no later than latest ones, and no negative isu. */
  ghost predicate OpenIsOrdered(d: Dicts)
  {
    && (forall q :: q in d.earliest && q in d.latest ==> d.earliest[q] <= d.latest[q])
    && (forall t :: 0 <= GetOr(d.addsOpen, t, 0))
  }

  /** Of any log that asks for no negative isu. */
  lemma LoggedOpenIsOrdered(log: seq<Entry>, d: Dicts)
    requires DictsOf(log, d) && forall e :: e in log && e.req.AddIsu? ==> 0 <= e.req.isu
    ensures OpenIsOrdered(d)
  {
    forall t ensures 0 <= GetOr(d.addsOpen, t, 0) {
      forall k | 0 <= k < |log| ensures 0 <= OpenIsu(t)(log[k]) {
        assert log[k] in log;
      }
      SumNonNegative(log, OpenIsu(t));
    }
    forall q | q in d.earliest && q in d.latest ensures d.earliest[q] <= d.latest[q] {
      var e :| e in log && !e.answered && Buys(e, q) && e.req.time == d.earliest[q];
    }
  }

  lemma UpperIsAbove(ms: Masters, st: GameStatus, d: Dicts)
    requires |st.schedule| > 0 && FitsLog(st, d) && OpenIsOrdered(d)
    requires forall k :: 0 <= k < |st.items| ==> st.items[k].countBuilt <= st.items[k].countBought
    ensures LowWindow(ms, st, d).base <= HighBase(ms, st, d)
  {
    var c := st.schedule[0].time;
    forall x: ItemStatus, k: nat | x in st.items && 1 <= k <= x.countBuilt
      ensures HighTime(d)(x.itemId, k) <= LowTime(d, c)(x.itemId, k)
    {
      assert Requested(d, x, k);
    }
    EarlierProducesMore(ms, c, st.items, HighTime(d), LowTime(d, c));
    TimesDoNotMatter(ms, st.items, HighTime(d), LowTime(d, c));
    DictSumAtMost(map[], d.addsOpen, c);
  }

  /**
   Between two openings of one window, growing or not, the upper search misses what the lower one finds exactly if it
   wraps.
   */
  lemma UpperMissesIfWraps(low: Window, base2: int, need: int)
    requires 0 <= low.start && Horizon(low) < INT64_BOUND && low.base <= base2
    ensures Searched(low, need).Some? ==>
      (Searched(Raised(low, base2), need).None? <==> WindowWraps(Raised(low, base2), need))
  {
    var high := Raised(low, base2);
    var ps, qs := ScheduleTo(low, Horizon(low)), ScheduleTo(high, Horizon(high));
    RaisedIsAlike(low, base2);
    AlikeWindows(low, high, Horizon(low));
    assert Times(ps) == Times(qs) && Slopes(ps) == Slopes(qs);
    ScheduleHasShape(low, Times(ps), Values(ps), Slopes(ps));
    ScheduleHasShape(high, Times(qs), Values(qs), Slopes(qs));
    AnswerSign(need, Times(qs), Values(qs), Slopes(qs));
    if need <= base2 {
      assert Values(qs)[0] == base2 && Stop(need, Times(qs), Values(qs), Slopes(qs), 0) == 0;
    } else if Searched(low, need).Some? {
      HigherIsFound(need, Times(ps), Values(ps), Values(qs), Slopes(ps));
    }
  }

  /**
   The "something wrong 2" exit.  For a status that fits the log it is taken, on an item of the given price, exactly
   if the search on the lower balance finds a time and the one on the upper balance wraps.
   */
  lemma NothingIsWrong(ms: Masters, st: GameStatus, d: Dicts, need: int)
    requires |st.schedule| > 0 && 0 <= st.schedule[0].time && st.schedule[0].time + 1000 < INT64_BOUND
    requires FitsLog(st, d) && OpenIsOrdered(d)
    requires forall k :: 0 <= k < |st.items| ==> st.items[k].countBuilt <= st.items[k].countBought
    ensures Searched(LowWindow(ms, st, d), need).Some? ==>
      (Searched(HighWindow(ms, st, d), need).None? <==> WindowWraps(HighWindow(ms, st, d), need))
  {
    UpperIsAbove(ms, st, d);
    UpperMissesIfWraps(LowWindow(ms, st, d), HighBase(ms, st, d), need);
  }
}
