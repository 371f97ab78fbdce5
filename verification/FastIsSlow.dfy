/** On logs in which every request was answered the fast validator and the slow one accept the same statuses. */
module FastIsSlow {
  import opened Answered
  import opened BenchCheck
  import opened BenchLog
  import opened Bracketing
  import opened Common
  import opened EventJump
  import opened Exponents
  import opened Format
  import opened Ledger
  import opened OnSaleSearch
  import opened Rows
  import opened Status
  import opened StatusCheck
  import opened StatusReading
  import opened Sums
  import opened TableReading
  import opened Windows

  // ---- Equal windows are judged equally -----------------------------------------------------------------------------

  /** When both balances are the same, lying between means showing exactly. */
  lemma BetweenIsMatching(st: GameStatus, w: Window)
    ensures 0 <= w.base && LiesBetween(st, w, w.base) <==> SolventShown(w) && Matches(st, w)
  {
    assert Raised(w, w.base) == w;
    var ps := ScheduleTo(w, Horizon(w));
    if NoneNegative(ps) {
    }
    var needs := Needs(w.ms, BoughtCounts(st.items));
    forall i | i in w.ms
      ensures OnSaleBetween(st, w, w, i)
        <==> Lookup(OnSaleTable(st.onSale), i) == Lookup(OnSaleMap(w, needs, Horizon(w)), i)
    {
    }
  }

  // ---- The two readings ---------------------------------------------------------------------------------------------

  /** All copies the items count are confirmed purchases. */
  ghost predicate AllConfirmed(d: Dicts, items: seq<ItemStatus>)
  {
    forall x, k: nat :: x in items && 1 <= k <= x.countBought ==> Confirmed(d, x, k)
  }

  ghost predicate WalksAsLogged(d: Dicts, items: seq<ItemStatus>)
  {
    forall x :: x in items ==> WalkPart()(x) == FuturePart(Logged(d))(x)
  }

  lemma BuiltReadAlike(d: Dicts, c: int, items: seq<ItemStatus>)
    requires AllConfirmed(d, items) && forall x :: x in items ==> x.countBuilt <= x.countBought
    ensures Flatten(items, BuiltPart(LowTime(d, c))) == Flatten(items, BuiltPart(Logged(d)))
    ensures Flatten(items, BuiltPart(HighTime(d))) == Flatten(items, BuiltPart(Logged(d)))
  {
    forall x | x in items
      ensures BuiltPart(LowTime(d, c))(x) == BuiltPart(Logged(d))(x)
        && BuiltPart(HighTime(d))(x) == BuiltPart(Logged(d))(x)
    {
      forall k: nat | 0 < k <= x.countBuilt
        ensures LowTime(d, c)(x.itemId, k) == Logged(d)(x.itemId, k)
          && HighTime(d)(x.itemId, k) == Logged(d)(x.itemId, k)
      {
        assert Confirmed(d, x, k);
      }
      SameCopies(x.itemId, 0, x.countBuilt, LowTime(d, c), Logged(d));
      SameCopies(x.itemId, 0, x.countBuilt, HighTime(d), Logged(d));
    }
    FlattenSame(items, BuiltPart(LowTime(d, c)), BuiltPart(Logged(d)));
    FlattenSame(items, BuiltPart(HighTime(d)), BuiltPart(Logged(d)));
  }

  /** With every copy confirmed, the two windows differ by the unanswered isu alone. */
  lemma WindowsDiffer(ms: Masters, st: GameStatus, d: Dicts)
    requires |st.schedule| > 0 && AllConfirmed(d, st.items) && WalksAsLogged(d, st.items)
    requires forall x :: x in st.items ==> x.countBuilt <= x.countBought
    ensures LowWindow(ms, st, d) == LoggedWindow(ms, st, d)
    ensures HighBase(ms, st, d) == LoggedWindow(ms, st, d).base + 1000 * DictSum(d.addsOpen, st.schedule[0].time)
  {
    BuiltReadAlike(d, st.schedule[0].time, st.items);
    FlattenSame(st.items, WalkPart(), FuturePart(Logged(d)));
  }

  lemma WindowsCoincide(ms: Masters, st: GameStatus, d: Dicts)
    requires |st.schedule| > 0 && AllAnswered(d) && AllConfirmed(d, st.items) && WalksAsLogged(d, st.items)
    requires forall x :: x in st.items ==> x.countBuilt <= x.countBought
    ensures LowWindow(ms, st, d) == LoggedWindow(ms, st, d) && HighBase(ms, st, d) == LoggedWindow(ms, st, d).base
  {
    WindowsDiffer(ms, st, d);
  }

  // ---- From the fast validator to the slow one ----------------------------------------------------------------------

  lemma {:induction false} WalkTakesLogged(d: Dicts, c: int, x: ItemStatus, k: nat)
    requires x.countBuilt <= k && FitTo(d, c, x, k)
    requires forall j: nat :: 1 <= j <= k ==> Confirmed(d, x, j)
    ensures WalkRows(x, k) == Copies(x.itemId, x.countBuilt, k, Logged(d))
    decreases k
  {
    if x.countBuilt < k {
      WalkTakesLogged(d, c, x, k - 1);
      assert ComingFits(d, c, x, k) && Confirmed(d, x, k);
    }
  }

  lemma FitItemAgrees(d: Dicts, w: Window, x: ItemStatus)
    requires AllRequested(d, x) && ItemFits(d, w.start, x) && d.earliest == map[] && x.countBuilt <= x.countBought
    requires Viewed(w, x)
    ensures CopiesAgree(d, w.start, x) && WalkPart()(x) == FuturePart(Logged(d))(x)
  {
    forall k: nat | 1 <= k <= x.countBought ensures Confirmed(d, x, k) {
      assert Requested(d, x, k);
    }
    BatchesAreExact(w, x.itemId, Horizon(w));
    forall k: nat | 1 <= k <= x.countBought ensures CopyAgrees(d, w.start, x, k) {
      assert Confirmed(d, x, k);
      if k <= x.countBuilt {
        assert HighTime(d)(x.itemId, k) <= w.start;
      } else {
        assert ComingFits(d, w.start, x, k);
      }
    }
    WalkTakesLogged(d, w.start, x, x.countBought);
  }

  lemma FitItemsAgree(ms: Masters, st: GameStatus, d: Dicts)
    requires |st.schedule| > 0 && BuysAnswered(d) && FitsLog(st, d)
    requires forall k :: 0 <= k < |st.items| ==>
      st.items[k].countBuilt <= st.items[k].countBought && Viewed(LowWindow(ms, st, d), st.items[k])
    ensures forall k :: 0 <= k < |st.items| ==> CopiesAgree(d, st.schedule[0].time, st.items[k])
    ensures AllConfirmed(d, st.items) && WalksAsLogged(d, st.items)
  {
    forall k | 0 <= k < |st.items|
      ensures CopiesAgree(d, st.schedule[0].time, st.items[k])
        && WalkPart()(st.items[k]) == FuturePart(Logged(d))(st.items[k])
    {
      FitItemAgrees(d, LowWindow(ms, st, d), st.items[k]);
    }
    ConfirmedIfAgreed(st, d);
  }

  lemma FitStatusAgrees(ms: Masters, st: GameStatus, d: Dicts)
    requires |st.schedule| > 0 && AllAnswered(d) && FitsLog(st, d)
    requires forall k :: 0 <= k < |st.items| ==>
      st.items[k].countBuilt <= st.items[k].countBought && Viewed(LowWindow(ms, st, d), st.items[k])
    ensures BackedByLog(ms, st, d) && AllConfirmed(d, st.items) && WalksAsLogged(d, st.items)
  {
    FitItemsAgree(ms, st, d);
  }

  lemma ConfirmedIfAgreed(st: GameStatus, d: Dicts)
    requires |st.schedule| > 0 && forall k :: 0 <= k < |st.items| ==> CopiesAgree(d, st.schedule[0].time, st.items[k])
    ensures AllConfirmed(d, st.items)
  {
    forall x, k: nat | x in st.items && 1 <= k <= x.countBought ensures Confirmed(d, x, k) {
      var j :| 0 <= j < |st.items| && st.items[j] == x;
      assert CopyAgrees(d, st.schedule[0].time, st.items[j], k);
    }
  }

  // ---- And back -----------------------------------------------------------------------------------------------------

  predicate InTurn(d: Dicts, c: int, item: int, j: nat, k: nat)
  {
    LoggedBy(d, item, j, c) || Logged(d)(item, j) <= Logged(d)(item, k)
  }
  predicate InReach(d: Dicts, c: int, item: int, k: nat) { LoggedBy(d, item, k, c + 1000) }

  /**
   The item's logged purchases dated after c are in time order, after those dated by c, and none is dated beyond the
   window.
   */
  ghost predicate BoughtInOrder(d: Dicts, c: int, x: ItemStatus)
  {
    && (forall j: nat, k: nat :: 1 <= j <= k <= x.countBought ==> InTurn(d, c, x.itemId, j, k))
    && (forall k: nat :: 1 <= k <= x.countBought ==> InReach(d, c, x.itemId, k))
  }

  lemma LoggedTableIsTimely(st: GameStatus, d: Dicts, c: int)
    requires UniqueIds(st.items) && forall x :: x in st.items ==> BoughtInOrder(d, c, x)
    requires InOrdinalOrder(LoggedBuying(st, d))
    ensures Timely(LoggedBuying(st, d), c)
  {
    var buying := LoggedBuying(st, d);
    forall j, k | 0 <= j < k < |buying| && buying[j].item == buying[k].item && c < buying[j].time
      ensures buying[j].time <= buying[k].time
    {
      assert buying[j] in buying && buying[k] in buying;
      var x := LoggedRowHolds(st.items, Logged(d), buying[j]);
      var y := LoggedRowHolds(st.items, Logged(d), buying[k]);
      OrdinalsDiffer(buying, j, k);
      assert InTurn(d, c, x.itemId, buying[j].ordinal, buying[k].ordinal);
    }
    forall b | b in buying ensures b.time <= c + 1000 {
      var x := LoggedRowHolds(st.items, Logged(d), b);
      assert InReach(d, c, x.itemId, b.ordinal);
    }
  }

  lemma LoggedTableHoldsCopies(ms: Masters, st: GameStatus, d: Dicts)
    requires ItemsOk(ms, st.items)
    ensures HoldsCopies(LoggedBuying(st, d), st.items, Logged(d))
  {
    AllItemsListed(ms, st.items);
    PartsOwnTheirRows(st.items, Logged(d));
    FlattenHolds(st.items, AllPart(Logged(d)));
  }

  lemma LoggedBuiltCount(ms: Masters, st: GameStatus, d: Dicts, c: int, k: nat)
    requires ItemsOk(ms, st.items) && CountsBuilt(st.items, Logged(d), c) && k < |st.items|
    ensures st.items[k].countBuilt == Built(LoggedBuying(st, d), st.items[k].itemId, c)
  {
    hide CountsBuilt, HoldsCopies;
    AllItemsListed(ms, st.items);
    LoggedTableHoldsCopies(ms, st, d);
    CountOfItem(st.items, Logged(d), k);
    BuiltSum(LoggedBuying(st, d), st.items, Logged(d), c, BuiltBy(st.items[k].itemId, c), OfItem(st.items[k].itemId));
  }

  lemma LoggedCountsAreRight(ms: Masters, st: GameStatus, d: Dicts, c: int)
    requires ItemsOk(ms, st.items) && CountsBuilt(st.items, Logged(d), c)
    ensures CountsRight(ms, st.items, LoggedBuying(st, d), c)
  {
    hide CountsBuilt;
    AllItemsListed(ms, st.items);
    LoggedTableIsSound(ms, st.items, Logged(d));
    forall k | 0 <= k < |st.items| ensures st.items[k].countBuilt == Built(LoggedBuying(st, d), st.items[k].itemId, c) {
      LoggedBuiltCount(ms, st, d, c, k);
    }
  }

  lemma ViewedItemIsTrue(ms: Masters, st: GameStatus, d: Dicts, x: ItemStatus)
    requires FormatOk(ms, st) && BackedByLog(ms, st, d) && x in st.items && x.itemId in ms
    requires Viewed(LoggedWindow(ms, st, d), x)
    ensures TrueBuilding(x.building, LoggedBuying(st, d), x.itemId, st.schedule[0].time)
  {
    var c := st.schedule[0].time;
    LoggedWindowIsTables(ms, st, d);
    ViewsAgree(WindowOf(ms, LoggedAdding(st, d), LoggedBuying(st, d), c), LoggedWindow(ms, st, d), x.itemId,
      x.countBought);
    ViewHasTrueBuilding(ms, LoggedAdding(st, d), LoggedBuying(st, d), c, x.itemId, x.countBought);
  }

  lemma AgreedCopy(d: Dicts, c: int, x: ItemStatus, k: nat)
    requires CopiesAgree(d, c, x) && 1 <= k <= x.countBought
    ensures Confirmed(d, x, k) && Requested(d, x, k) && (k <= x.countBuilt <==> Logged(d)(x.itemId, k) <= c)
    ensures Logged(d)(x.itemId, k) == d.buys[Copy(x.itemId, k - 1)] == HighTime(d)(x.itemId, k)
  {
    assert CopyAgrees(d, c, x, k);
  }

  /** The table of logged purchases times every copy as the log does. */
  ghost predicate TimedAsLogged(d: Dicts, buying: seq<Buying>, x: ItemStatus)
  {
    forall k: nat :: 1 <= k <= x.countBought ==> RowTimes(buying)(x.itemId, k) == Logged(d)(x.itemId, k)
  }

  lemma AgreedComingFits(d: Dicts, buying: seq<Buying>, c: int, x: ItemStatus, k: nat)
    requires InOrdinalOrder(buying) && Timely(buying, c)
    requires TrueItem(x, buying, c) && CopiesAgree(d, c, x) && TimedAsLogged(d, buying, x)
      && x.countBuilt < k <= x.countBought
    ensures ComingFits(d, c, x, k)
  {
    AgreedCopy(d, c, x, k);
    assert RowTimes(buying)(x.itemId, k) == Logged(d)(x.itemId, k);
    RowOfCopy(buying, x.itemId, k);
    WalkFindsTime(x, buying, c, k);
  }

  lemma AgreedItemFits(d: Dicts, buying: seq<Buying>, c: int, x: ItemStatus)
    requires InOrdinalOrder(buying) && Timely(buying, c)
    requires TrueItem(x, buying, c) && CopiesAgree(d, c, x) && NothingMissed(d, c, x) && TimedAsLogged(d, buying, x)
    ensures AllRequested(d, x) && ItemFits(d, c, x) && WalkPart()(x) == FuturePart(Logged(d))(x)
  {
    BuiltAtMostBought(buying, x.itemId, c);
    forall k: nat | 1 <= k <= x.countBought
      ensures Requested(d, x, k) && (k <= x.countBuilt ==> HighTime(d)(x.itemId, k) <= c)
    {
      AgreedCopy(d, c, x, k);
    }
    forall k: nat | x.countBuilt < k <= x.countBought ensures ComingFits(d, c, x, k) {
      AgreedComingFits(d, buying, c, x, k);
    }
    WalkRowsAreRows(x, buying, c, x.countBought);
    SameCopies(x.itemId, x.countBuilt, x.countBought, RowTimes(buying), Logged(d));
  }

  lemma BackedCountsBuilt(ms: Masters, st: GameStatus, d: Dicts)
    requires FormatOk(ms, st) && BackedByLog(ms, st, d)
    ensures CountsBuilt(st.items, Logged(d), st.schedule[0].time)
  {
    forall x, k: nat | x in st.items && 1 <= k <= x.countBought
      ensures Logged(d)(x.itemId, k) <= st.schedule[0].time <==> k <= x.countBuilt
    {
      var j :| 0 <= j < |st.items| && st.items[j] == x;
      assert CopyAgrees(d, st.schedule[0].time, x, k);
    }
  }

  lemma BackedItemFits(ms: Masters, st: GameStatus, d: Dicts, k: nat)
    requires FormatOk(ms, st) && StatusAccepts(ms, st, d) && k < |st.items|
    requires InOrdinalOrder(LoggedBuying(st, d)) && Timely(LoggedBuying(st, d), st.schedule[0].time)
    requires CountsRight(ms, st.items, LoggedBuying(st, d), st.schedule[0].time)
    ensures AllRequested(d, st.items[k]) && ItemFits(d, st.schedule[0].time, st.items[k])
      && WalkPart()(st.items[k]) == FuturePart(Logged(d))(st.items[k])
  {
    var x := st.items[k];
    ViewedItemIsTrue(ms, st, d, x);
    forall j: nat | 1 <= j <= x.countBought
      ensures RowTimes(LoggedBuying(st, d))(x.itemId, j) == Logged(d)(x.itemId, j)
    {
      RowTimesAreLogged(ms, st, d, x, j);
    }
    AgreedItemFits(d, LoggedBuying(st, d), st.schedule[0].time, x);
  }

  lemma BackedStatusFits(ms: Masters, st: GameStatus, d: Dicts)
    requires FormatOk(ms, st) && StatusAccepts(ms, st, d) && AllAnswered(d)
    requires forall x :: x in st.items ==> BoughtInOrder(d, st.schedule[0].time, x)
    ensures FitsLog(st, d) && AllConfirmed(d, st.items) && WalksAsLogged(d, st.items)
  {
    BackedCountsBuilt(ms, st, d);
    LoggedCountsAreRight(ms, st, d, st.schedule[0].time);
    AllItemsListed(ms, st.items);
    LoggedTableIsSound(ms, st.items, Logged(d));
    LoggedTableIsTimely(st, d, st.schedule[0].time);
    forall k | 0 <= k < |st.items|
      ensures AllRequested(d, st.items[k]) && ItemFits(d, st.schedule[0].time, st.items[k])
        && WalkPart()(st.items[k]) == FuturePart(Logged(d))(st.items[k])
    {
      BackedItemFits(ms, st, d, k);
    }
    ConfirmedIfAgreed(st, d);
  }

  // ---- The equivalence ----------------------------------------------------------------------------------------------

  lemma FastImpliesSlow(ms: Masters, st: GameStatus, d: Dicts)
    requires FormatOk(ms, st) && AllAnswered(d) && BenchAccepts(ms, st, d)
    ensures StatusAccepts(ms, st, d)
  {
    FitStatusAgrees(ms, st, d);
    WindowsCoincide(ms, st, d);
    BetweenIsMatching(st, LoggedWindow(ms, st, d));
  }

  lemma SlowImpliesFast(ms: Masters, st: GameStatus, d: Dicts)
    requires FormatOk(ms, st) && AllAnswered(d) && StatusAccepts(ms, st, d)
    requires forall x :: x in st.items ==> BoughtInOrder(d, st.schedule[0].time, x)
    ensures BenchAccepts(ms, st, d)
  {
    BackedStatusFits(ms, st, d);
    WindowsCoincide(ms, st, d);
    BetweenIsMatching(st, LoggedWindow(ms, st, d));
  }

  lemma {:induction false} WalkIdxGrows(building: seq<Building>, built: nat, j: nat, k: nat)
    requires j <= k
    ensures WalkIdx(building, built, j) <= WalkIdx(building, built, k)
    decreases k
  {
    if j < k {
      WalkIdxGrows(building, built, j, k - 1);
    }
  }

  lemma FitCopyIsTimed(d: Dicts, c: int, x: ItemStatus, k: nat)
    requires AllRequested(d, x) && ItemFits(d, c, x) && d.earliest == map[] && x.countBuilt <= x.countBought
      && 1 <= k <= x.countBought
    ensures k <= x.countBuilt ==> Logged(d)(x.itemId, k) <= c
    ensures x.countBuilt < k ==>
      var p := WalkIdx(x.building, x.countBuilt, k); p < |x.building| && Logged(d)(x.itemId, k) == x.building[p].time
  {
    assert Requested(d, x, k);
    if k <= x.countBuilt {
      assert HighTime(d)(x.itemId, k) <= c;
    } else {
      assert ComingFits(d, c, x, k);
    }
  }

  lemma ViewedTimesRise(w: Window, x: ItemStatus)
    requires Viewed(w, x)
    ensures forall p :: 0 <= p < |x.building| ==> x.building[p].time <= w.start + 1000
    ensures forall p, q :: 0 <= p <= q < |x.building| ==> x.building[p].time <= x.building[q].time
  {
    BatchesAreExact(w, x.itemId, Horizon(w));
  }

  /** The walk through an item's building list never turns back, so what it accepts was bought in order. */
  lemma FitItemIsInOrder(d: Dicts, w: Window, x: ItemStatus)
    requires AllRequested(d, x) && ItemFits(d, w.start, x) && d.earliest == map[] && x.countBuilt <= x.countBought
    requires Viewed(w, x)
    ensures BoughtInOrder(d, w.start, x)
  {
    ViewedTimesRise(w, x);
    hide ItemFits, Viewed, AllRequested, WalkIdx;
    forall j: nat, k: nat | 1 <= j <= k <= x.countBought ensures InTurn(d, w.start, x.itemId, j, k) {
      FitCopyIsTimed(d, w.start, x, j);
      FitCopyIsTimed(d, w.start, x, k);
      WalkIdxGrows(x.building, x.countBuilt, j, k);
    }
    forall k: nat | 1 <= k <= x.countBought ensures InReach(d, w.start, x.itemId, k) {
      FitCopyIsTimed(d, w.start, x, k);
    }
  }

  lemma FitStatusIsInOrder(ms: Masters, st: GameStatus, d: Dicts)
    requires |st.schedule| > 0 && AllAnswered(d) && FitsLog(st, d)
    requires forall k :: 0 <= k < |st.items| ==>
      st.items[k].countBuilt <= st.items[k].countBought && Viewed(LowWindow(ms, st, d), st.items[k])
    ensures forall x :: x in st.items ==> BoughtInOrder(d, st.schedule[0].time, x)
  {
    forall x | x in st.items ensures BoughtInOrder(d, st.schedule[0].time, x) {
      var k :| 0 <= k < |st.items| && st.items[k] == x;
      FitItemIsInOrder(d, LowWindow(ms, st, d), x);
    }
  }

  /**
   The fast validator refines the slow one: with every request answered it accepts, of the well-formed statuses, those
   the slow one accepts whose items were bought in time order from the status's time on, none beyond the window.
   */
  lemma FastIsSlow(ms: Masters, st: GameStatus, d: Dicts)
    requires FormatOk(ms, st) && AllAnswered(d)
    ensures BenchAccepts(ms, st, d)
      <==> StatusAccepts(ms, st, d) && forall x :: x in st.items ==> BoughtInOrder(d, st.schedule[0].time, x)
  {
    if BenchAccepts(ms, st, d) {
      FastImpliesSlow(ms, st, d);
      FitStatusIsInOrder(ms, st, d);
    } else if StatusAccepts(ms, st, d) && forall x :: x in st.items ==> BoughtInOrder(d, st.schedule[0].time, x) {
      SlowImpliesFast(ms, st, d);
    }
  }

  // ---- With its searches --------------------------------------------------------------------------------------------

  lemma LoggedWindowGrows(ms: Masters, st: GameStatus, d: Dicts)
    requires |st.schedule| > 0 && forall k :: 0 <= k < |st.adding| ==> 0 <= st.adding[k].isu
    ensures Growing(LoggedWindow(ms, st, d))
  {
    var w := LoggedWindow(ms, st, d);
    SumNonNegative(Flatten(st.items, BuiltPart(Logged(d))), PowerRow(ms));
    forall t | t in w.adds && w.start < t ensures 0 <= w.adds[t] {
      AddsOfHolds(st.adding, t);
      var k :| 0 <= k < |st.adding| && st.adding[k] == Adding(t, w.adds[t]);
    }
  }

  /** What a window shows passes against itself exactly if the search wraps for no item listed as on sale. */
  lemma MatchingPasses(ms: Masters, st: GameStatus, w: Window)
    requires w.ms == ms && 0 <= w.start && Horizon(w) < INT64_BOUND && Growing(w)
    requires 0 <= w.base && LiesBetween(st, w, w.base) && Matches(st, w)
    ensures PassesBetween(st, w, w.base) <==> NoListedWrap(ms, st, w)
  {
    assert Raised(w, w.base) == w;
    PassesIfLies(st, w, w.base);
    RaisedIsAlike(w, w.base);
    var needs := Needs(ms, BoughtCounts(st.items));
    forall i | i in ms
      ensures SearchedBetween(st, w, w, i) <==> (i in OnSaleTable(st.onSale) ==> !WindowWraps(w, NextPrice(ms, st, i)))
    {
      SearchedTimeFits(w, w, w.base, needs[i]);
      assert Lookup(OnSaleTable(st.onSale), i) == Lookup(OnSaleMap(w, needs, Horizon(w)), i);
    }
  }

  lemma CountsAreOk(ms: Masters, st: GameStatus)
    requires FormatOk(ms, st)
    ensures forall k :: 0 <= k < |st.items| ==> st.items[k].countBuilt <= st.items[k].countBought
  {
  }

  lemma VerdictImpliesSlow(ms: Masters, st: GameStatus, d: Dicts)
    requires FormatOk(ms, st) && AllAnswered(d) && 0 <= st.schedule[0].time && st.schedule[0].time + 1000 < INT64_BOUND
    requires Growing(LoggedWindow(ms, st, d)) && forall i :: i in ms ==>
      !WindowWraps(LoggedWindow(ms, st, d), NextPrice(ms, st, i))
    requires BenchVerdict(ms, st, d)
    ensures StatusAccepts(ms, st, d)
  {
    var w, needs := LoggedWindow(ms, st, d), Needs(ms, BoughtCounts(st.items));
    CountsAreOk(ms, st);
    hide FormatOk, WindowWraps, Growing, StatusWindow;
    FitStatusAgrees(ms, st, d);
    WindowsCoincide(ms, st, d);
    assert Raised(w, w.base) == w;
    forall i | i in needs ensures !WindowWraps(w, needs[i]) {
      assert NextPrice(ms, st, i) == needs[i];
    }
    PassingIsLying(st, w, w.base);
    BetweenIsMatching(st, w);
  }

  /**
   The code of the two validators, where the announced adds are not negative.  A status the slow one accepts passes
   the fast one exactly if its items were bought in order and the search wraps for none it lists as on sale; a status
   that passes the fast one, no search wrapping, is one the slow one accepts.
   */
  lemma FastVerdictIsSlow(ms: Masters, st: GameStatus, d: Dicts)
    requires FormatOk(ms, st) && AllAnswered(d) && 0 <= st.schedule[0].time && st.schedule[0].time + 1000 < INT64_BOUND
    requires forall k :: 0 <= k < |st.adding| ==> 0 <= st.adding[k].isu
    ensures StatusAccepts(ms, st, d) ==> (BenchVerdict(ms, st, d) <==>
      (forall x :: x in st.items ==> BoughtInOrder(d, st.schedule[0].time, x))
        && NoListedWrap(ms, st, LoggedWindow(ms, st, d)))
    ensures BenchVerdict(ms, st, d)
      && (forall i :: i in ms ==> !WindowWraps(LoggedWindow(ms, st, d), NextPrice(ms, st, i)))
      ==> StatusAccepts(ms, st, d)
  {
    LoggedWindowGrows(ms, st, d);
    CountsAreOk(ms, st);
    hide WindowWraps, Growing, BoughtInOrder;
    if StatusAccepts(ms, st, d) {
      if forall x :: x in st.items ==> BoughtInOrder(d, st.schedule[0].time, x) {
        SlowImpliesFast(ms, st, d);
        BackedStatusFits(ms, st, d);
        WindowsCoincide(ms, st, d);
        MatchingPasses(ms, st, LoggedWindow(ms, st, d));
      } else if BenchVerdict(ms, st, d) {
        FitStatusIsInOrder(ms, st, d);
      }
    } else if BenchVerdict(ms, st, d) && forall i :: i in ms ==>
      !WindowWraps(LoggedWindow(ms, st, d), NextPrice(ms, st, i)) {
      VerdictImpliesSlow(ms, st, d);
    }
  }
}
