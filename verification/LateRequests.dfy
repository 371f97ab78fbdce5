/**
 Requests of a status's own millisecond that take effect after it was computed: the log counts them, the status does
 not.  Exactly when the fast validator passes such a status of an answered run.
 */
module LateRequests {
  import opened Answered
  import opened BenchCheck
  import opened BenchLog
  import opened Bracketing
  import opened Common
  import opened EventJump
  import opened Exponents
  import opened FastIsSlow
  import opened GameLog
  import opened HonestGame
  import opened HonestRuns
  import opened Items
  import opened Ledger
  import opened OnSaleSearch
  import opened Rooms
  import opened Rows
  import opened Runs
  import opened Soundness
  import opened Status
  import opened StatusCheck
  import opened StatusReading
  import opened Sums
  import opened Verdicts
  import opened Windows

  // ---- A status with another schedule -------------------------------------------------------------------------------

  /** st lists the items of the tables at c and their adds to come, whatever schedule and on-sale times it shows. */
  ghost predicate Lists(ms: Masters, st: GameStatus, adding: seq<Adding>, buying: seq<Buying>, c: int)
  {
    && TablesOk(ms, adding, buying) && 0 <= c
    && |st.schedule| > 0 && st.schedule[0].time == c
    && ListsItems(st.items, WindowOf(ms, adding, buying, c), BoughtMap(ms, buying))
    && ListsAdds(st.adding, FutureAdds(adding, c))
  }

  ghost function ListOf(m: map<int, int>): seq<OnSale>
  {
    var ks := AnyOrder(m.Keys);
    seq(|ks|, k requires 0 <= k < |ks| => OnSale(ks[k], GetOr(m, ks[k], 0)))
  }

  lemma ListOfLists(m: map<int, int>)
    ensures ListsTimes(ListOf(m), m)
  {
    var ks := AnyOrder(m.Keys);
    forall i | i in m ensures exists k :: 0 <= k < |ListOf(m)| && ListOf(m)[k].itemId == i {
      assert i in ks;
      var k :| 0 <= k < |ks| && ks[k] == i;
      assert ListOf(m)[k].itemId == i;
    }
    forall k | 0 <= k < |ks| ensures ks[k] in m {
      assert ks[k] in m.Keys;
    }
  }

  /** st with the tables' own schedule and on-sale times. */
  ghost function Completed(ms: Masters, st: GameStatus, adding: seq<Adding>, buying: seq<Buying>, c: int): GameStatus
  {
    var v := WindowOf(ms, adding, buying, c);
    st.(schedule := RoundSchedule(ScheduleTo(v, Horizon(v))),
        onSale := ListOf(OnSaleMap(v, Needs(ms, BoughtMap(ms, buying)), Horizon(v))))
  }

  lemma CompletedIsDrawn(ms: Masters, st: GameStatus, adding: seq<Adding>, buying: seq<Buying>, c: int)
    requires Lists(ms, st, adding, buying, c)
    ensures Drawn(ms, Completed(ms, st, adding, buying, c), adding, buying, c)
  {
    var v := WindowOf(ms, adding, buying, c);
    ListOfLists(OnSaleMap(v, Needs(ms, BoughtMap(ms, buying)), Horizon(v)));
  }

  /** The two statuses start, and list items and adds, alike. */
  predicate SameLists(st: GameStatus, cs: GameStatus)
  {
    |st.schedule| > 0 && |cs.schedule| > 0 && st.schedule[0].time == cs.schedule[0].time && st.items == cs.items
      && st.adding == cs.adding
  }

  lemma SameReading(ms: Masters, st: GameStatus, cs: GameStatus, d: Dicts)
    requires SameLists(st, cs)
    ensures FitsLog(st, d) == FitsLog(cs, d) && LowWindow(ms, st, d) == LowWindow(ms, cs, d)
      && HighBase(ms, st, d) == HighBase(ms, cs, d)
  {
  }

  lemma CompletedStarts(ms: Masters, st: GameStatus, adding: seq<Adding>, buying: seq<Buying>, c: int)
    requires Lists(ms, st, adding, buying, c)
    ensures SameLists(st, Completed(ms, st, adding, buying, c))
  {
    CompletedIsDrawn(ms, st, adding, buying, c);
    StartsAt(ms, Completed(ms, st, adding, buying, c), adding, buying, c);
  }

  // ---- One window ---------------------------------------------------------------------------------------------------

  /** What a search on the window finds for each item is what st lists. */
  ghost predicate ListsSearched(ms: Masters, st: GameStatus, w: Window)
  {
    forall i :: i in ms ==> Lookup(OnSaleTable(st.onSale), i) == Searched(w, NextPrice(ms, st, i))
  }

  ghost predicate AllViewed(w: Window, items: seq<ItemStatus>)
  {
    forall k :: 0 <= k < |items| ==> Viewed(w, items[k])
  }

  lemma ShowsItself(s: seq<ScheduleEntry>, ps: seq<Point>)
    requires NoneNegative(ps)
    ensures ScheduleBetween(s, ps, ps) <==> s == RoundSchedule(ps)
  {
  }

  /** Between a window and itself lies only what it shows, with the times its searches find. */
  lemma PassesItself(st: GameStatus, w: Window)
    requires NoneNegative(ScheduleTo(w, Horizon(w)))
    ensures PassesBetween(st, w, w.base) <==>
      st.schedule == RoundSchedule(ScheduleTo(w, Horizon(w))) && AllViewed(w, st.items) && ListsSearched(w.ms, st, w)
  {
    assert Raised(w, w.base) == w;
    ShowsItself(st.schedule, ScheduleTo(w, Horizon(w)));
    hide RoundSchedule, ScheduleBetween, Searched, Viewed;
    forall i | i in w.ms
      ensures SearchedBetween(st, w, w, i)
        <==> Lookup(OnSaleTable(st.onSale), i) == Searched(w, NextPrice(w.ms, st, i))
    {
      var needs := Needs(w.ms, BoughtCounts(st.items));
      assert i in needs && NextPrice(w.ms, st, i) == needs[i];
    }
  }

  lemma ShownAlike(ms: Masters, st: GameStatus, v: Window, w: Window)
    requires Alike(v, w) && v.base == w.base
    ensures ListsSearched(ms, st, v) <==> ListsSearched(ms, st, w)
    ensures ScheduleTo(v, Horizon(v)) == ScheduleTo(w, Horizon(w))
  {
    SameSchedule(v, w, Horizon(v));
    forall i | i in ms ensures Searched(v, NextPrice(ms, st, i)) == Searched(w, NextPrice(ms, st, i)) {
      SearchedAlike(v, w, NextPrice(ms, st, i));
    }
  }

  ghost predicate ShowsSchedule(ms: Masters, st: GameStatus, adding: seq<Adding>, buying: seq<Buying>, c: int)
  {
    var v := WindowOf(ms, adding, buying, c);
    st.schedule == RoundSchedule(ScheduleTo(v, Horizon(v)))
  }

  /** st lists each item of the tables with the on-sale time that the search on their window takes for it, or none. */
  ghost predicate ShowsSearched(ms: Masters, st: GameStatus, adding: seq<Adding>, buying: seq<Buying>, c: int)
  {
    var v := WindowOf(ms, adding, buying, c);
    forall i :: i in ms ==> Lookup(OnSaleTable(st.onSale), i) == Searched(v, Need(ms, i, Bought(buying, i)))
  }

  /** st lists each item of the tables with its on-sale time, or none. */
  ghost predicate ShowsOnSale(ms: Masters, st: GameStatus, adding: seq<Adding>, buying: seq<Buying>, c: int)
  {
    var v := WindowOf(ms, adding, buying, c);
    forall i :: i in ms ==> Lookup(OnSaleTable(st.onSale), i) == OnSaleTo(v, Need(ms, i, Bought(buying, i)), Horizon(v))
  }

  lemma PricesAreListed(ms: Masters, st: GameStatus, adding: seq<Adding>, buying: seq<Buying>, c: int)
    requires Lists(ms, st, adding, buying, c)
    ensures Needs(ms, BoughtCounts(st.items)) == map i | i in ms :: Need(ms, i, Bought(buying, i))
    ensures forall i :: i in ms ==> NextPrice(ms, st, i) == Need(ms, i, Bought(buying, i))
  {
    ListedCountsAreRight(ms, adding, buying, c, st.items);
    ListedCountsAre(ms, st.items, buying, c);
    forall i | i in ms ensures NextPrice(ms, st, i) == Need(ms, i, Bought(buying, i)) {
      assert i in Needs(ms, BoughtCounts(st.items));
    }
    SameTable(Needs(ms, BoughtCounts(st.items)), map i | i in ms :: Need(ms, i, Bought(buying, i)));
  }

  /** The upper window, the lower one and the true one are then the same. */
  lemma OneWindow(ms: Masters, cs: GameStatus, d: Dicts, adding: seq<Adding>, buying: seq<Buying>, c: int)
    requires Computed(ms, cs, adding, buying, c) && Timely(buying, c) && Explains(d, adding, buying, c)
      && AllAnswered(d)
    ensures |cs.schedule| > 0 && FitsLog(cs, d)
    ensures var low := LowWindow(ms, cs, d);
      low.ms == ms && Alike(WindowOf(ms, adding, buying, c), low)
        && low.base == Balance(ms, adding, buying, c) == HighBase(ms, cs, d)
        && AllViewed(low, cs.items) && NoneNegative(ScheduleTo(low, Horizon(low)))
  {
    GenuineFitsLog(ms, cs, d, adding, buying, c);
    WindowsBracket(ms, cs, d, adding, buying, c);
    var v, low := WindowOf(ms, adding, buying, c), LowWindow(ms, cs, d);
    hide Alike, Explains, AllAnswered, Timely, FitsLog, HighBase, ListsTimes, ListsAdds;
    DrawnCounts(ms, cs, adding, buying, c);
    ListedViewsAgree(v, low, cs.items, BoughtMap(ms, buying));
    OneBase(ms, cs, d, adding, buying, c);
    SolventWindow(ms, adding, buying, c);
    WindowsStartAlike(v, low);
    SameSchedule(v, low, Horizon(v));
  }

  lemma OneBase(ms: Masters, cs: GameStatus, d: Dicts, adding: seq<Adding>, buying: seq<Buying>, c: int)
    requires Computed(ms, cs, adding, buying, c) && Timely(buying, c) && Explains(d, adding, buying, c)
      && AllAnswered(d) && |cs.schedule| > 0 && FitsLog(cs, d)
    requires AllViewed(LowWindow(ms, cs, d), cs.items)
    ensures LowWindow(ms, cs, d).base == Balance(ms, adding, buying, c) == HighBase(ms, cs, d)
  {
    DrawnCounts(ms, cs, adding, buying, c);
    FitStatusAgrees(ms, cs, d);
    OrderKeepsBuiltFirst(buying, c, c);
    UpperIsTrue(ms, cs, d, adding, buying, c);
    WindowsCoincide(ms, cs, d);
  }

  /**
   A status that lists the items and the adds to come of the tables the log explains passes, every request answered,
   exactly if the purchases are in time order and within the window, the balance is not negative, and the status shows
   the schedule of those tables and the on-sale times searched on it.
   */
  lemma ListedVerdict(ms: Masters, st: GameStatus, d: Dicts, adding: seq<Adding>, buying: seq<Buying>, c: int)
    requires Lists(ms, st, adding, buying, c) && Explains(d, adding, buying, c) && AllAnswered(d)
    ensures BenchVerdict(ms, st, d) <==>
      && Timely(buying, c) && 0 <= Balance(ms, adding, buying, c)
      && ShowsSchedule(ms, st, adding, buying, c) && ShowsSearched(ms, st, adding, buying, c)
  {
    var v, cs := WindowOf(ms, adding, buying, c), Completed(ms, st, adding, buying, c);
    CompletedIsDrawn(ms, st, adding, buying, c);
    CompletedStarts(ms, st, adding, buying, c);
    SameReading(ms, st, cs, d);
    SearchesAreListed(ms, st, adding, buying, c);
    hide Completed, Lists, Drawn, Alike, Timely, Explains, AllAnswered, FitsLog, LowWindow, HighBase,
      PassesBetween, ListsSearched, ShowsSearched, Balance;
    if Timely(buying, c) && 0 <= Balance(ms, adding, buying, c) {
      assert Computed(ms, cs, adding, buying, c);
      OneWindow(ms, cs, d, adding, buying, c);
      var low := LowWindow(ms, cs, d);
      PassesItself(st, low);
      ShownAlike(ms, st, v, low);
    } else if BenchVerdict(ms, st, d) {
      PassingViews(st, LowWindow(ms, st, d), HighBase(ms, st, d));
      FittingIsTimely(ms, cs, d, adding, buying, c);
    }
  }

  lemma SearchesAreListed(ms: Masters, st: GameStatus, adding: seq<Adding>, buying: seq<Buying>, c: int)
    requires Lists(ms, st, adding, buying, c)
    ensures ShowsSearched(ms, st, adding, buying, c) <==> ListsSearched(ms, st, WindowOf(ms, adding, buying, c))
  {
    PricesAreListed(ms, st, adding, buying, c);
  }

  lemma PassingViews(st: GameStatus, w: Window, base2: int)
    requires PassesBetween(st, w, base2)
    ensures AllViewed(w, st.items)
  {
  }

  // ---- The slow validator -------------------------------------------------------------------------------------------

  /** What a window shows is what the tables' window shows of such a status. */
  lemma ListedMatches(ms: Masters, st: GameStatus, adding: seq<Adding>, buying: seq<Buying>, c: int)
    requires Lists(ms, st, adding, buying, c)
    ensures Matches(st, WindowOf(ms, adding, buying, c))
      <==> ShowsSchedule(ms, st, adding, buying, c) && ShowsOnSale(ms, st, adding, buying, c)
  {
    var v, needs := WindowOf(ms, adding, buying, c), Needs(ms, BoughtCounts(st.items));
    PricesAreListed(ms, st, adding, buying, c);
    hide RoundSchedule, ListsItems, ListsAdds, OnSaleMap, Viewed, OnSaleTo, BoughtCounts, TablesOk, OnSaleTable, Needs,
      Need, Bought;
    ItemsAreViewed(v, st.items, BoughtMap(ms, buying));
    forall i | i in ms
      ensures Lookup(OnSaleMap(v, needs, Horizon(v)), i) == OnSaleTo(v, Need(ms, i, Bought(buying, i)), Horizon(v))
    {
      MappedTime(v, needs, i);
    }
  }

  lemma MappedTime(v: Window, needs: map<int, int>, i: int)
    requires i in needs
    ensures Lookup(OnSaleMap(v, needs, Horizon(v)), i) == OnSaleTo(v, needs[i], Horizon(v))
  {
  }

  lemma ItemsAreViewed(v: Window, items: seq<ItemStatus>, bought: map<int, nat>)
    requires ListsItems(items, v, bought)
    ensures AllViewed(v, items)
  {
  }

  /**
   The slow validator's exact condition: it needs only that the purchases dated by the status's time come first, and
   compares the true on-sale times.
   */
  lemma ListedIsAccepted(ms: Masters, st: GameStatus, d: Dicts, adding: seq<Adding>, buying: seq<Buying>, c: int)
    requires Lists(ms, st, adding, buying, c) && Explains(d, adding, buying, c) && AllAnswered(d)
    ensures StatusAccepts(ms, st, d) <==>
      && BuiltFirst(buying, c) && 0 <= Balance(ms, adding, buying, c)
      && ShowsSchedule(ms, st, adding, buying, c) && ShowsOnSale(ms, st, adding, buying, c)
  {
    var v, cs := WindowOf(ms, adding, buying, c), Completed(ms, st, adding, buying, c);
    CompletedIsDrawn(ms, st, adding, buying, c);
    CompletedStarts(ms, st, adding, buying, c);
    assert BackedByLog(ms, st, d) == BackedByLog(ms, cs, d) && LoggedWindow(ms, st, d) == LoggedWindow(ms, cs, d);
    ListedMatches(ms, st, adding, buying, c);
    SolventWindow(ms, adding, buying, c);
    hide Completed, Lists, Alike, BuiltFirst, Explains, AllAnswered, BackedByLog, LoggedWindow, SolventShown, Matches,
      ShowsSchedule, ShowsOnSale, Balance;
    if BuiltFirst(buying, c) {
      ComputedIsBacked(ms, cs, d, adding, buying, c);
      ComputedReadsTrue(ms, cs, d, adding, buying, c);
      TrueReadingIsWindow(ms, cs, adding, buying, c);
      JudgedAlike(st, v, LoggedWindow(ms, st, d));
    } else if BackedByLog(ms, cs, d) {
      BackedMeansBuiltFirst(ms, cs, d, adding, buying, c);
    }
  }

  // ---- Runs ---------------------------------------------------------------------------------------------------------

  /** The isu that adds dated exactly the time of the state after n happenings brought after that state. */
  function LateIsu(ms: Masters, hs: seq<Happening>, n: nat): int
    requires n <= |hs|
  {
    var s := RoomAfter(ms, hs[..n]);
    Sum(RoomAfter(ms, hs).adding, IsuAt(s.time)) - Sum(s.adding, IsuAt(s.time))
  }

  /** The adds of the state after n happenings, with that isu. */
  function WithLate(ms: Masters, hs: seq<Happening>, n: nat): seq<Adding>
    requires n <= |hs|
  {
    var s := RoomAfter(ms, hs[..n]);
    WithIsu(s.adding, LateIsu(ms, hs, n), s.time)
  }

  lemma LateIsNonNegative(ms: Masters, hs: seq<Happening>, n: nat)
    requires n <= |hs| && FairRun(hs)
    ensures 0 <= LateIsu(ms, hs, n)
  {
    var s, log, pre := RoomAfter(ms, hs[..n]), LogOf(ms, hs), LogOf(ms, hs[..n]);
    LaterRun(ms, hs, n);
    EntriesNonNegative(ms, hs);
    var rest := log[|pre|..];
    assert log == pre + rest;
    IsuIsLogged(ms, hs, s.time);
    IsuIsLogged(ms, hs[..n], s.time);
    hide LogOf, RoomAfter;
    SumConcat(pre, rest, TookEffect(s.time));
    forall k | 0 <= k < |rest| ensures 0 <= TookEffect(s.time)(rest[k]) {
      assert rest[k] in log;
    }
    SumNonNegative(rest, TookEffect(s.time));
  }

  /** A row brought up to date at c changes nothing that comes later. */
  lemma LateRowStaysPast(adding: seq<Adding>, isu: int, c: int)
    requires UniqueTimes(adding) && NonNegativeIsu(adding) && 0 <= isu
    ensures UniqueTimes(WithIsu(adding, isu, c)) && NonNegativeIsu(WithIsu(adding, isu, c))
    ensures forall a :: a in WithIsu(adding, isu, c) && c < a.time ==> a in adding
    ensures FutureAdds(WithIsu(adding, isu, c), c) == FutureAdds(adding, c)
  {
    var k, next := RowIndex(adding, c), WithIsu(adding, isu, c);
    if k < |adding| {
      PastRowsDoNotMatter(adding, k, next[k], c);
    } else {
      assert next[..|adding|] == adding;
    }
  }

  lemma {:induction false} PastRowsDoNotMatter(adding: seq<Adding>, k: nat, a: Adding, c: int)
    requires k < |adding| && adding[k].time <= c && a.time <= c
    ensures FutureAdds(adding[k := a], c) == FutureAdds(adding, c)
  {
    var n := |adding| - 1;
    if k < n {
      PastRowsDoNotMatter(adding[..n], k, a, c);
      assert adding[k := a][..n] == adding[..n][k := a];
    } else {
      assert adding[k := a][..n] == adding[..n];
    }
  }

  /** Up to the state's time, its rows with the late isu are those the run ends with. */
  lemma WithLateIsFinal(ms: Masters, hs: seq<Happening>, n: nat)
    requires n <= |hs| && FairRun(hs)
    ensures HoldsFinally(ms, hs, WithLate(ms, hs, n), RoomAfter(ms, hs[..n]).time)
  {
    var s := RoomAfter(ms, hs[..n]);
    EarlierIsFinal(ms, hs, n, s.time - 1);
    hide RoomAfter;
    forall t | t <= s.time ensures Sum(WithLate(ms, hs, n), IsuAt(t)) == Sum(RoomAfter(ms, hs).adding, IsuAt(t)) {
      WithIsuTotal(s.adding, LateIsu(ms, hs, n), s.time, t);
    }
  }

  lemma LateTablesAreSound(ms: Masters, hs: seq<Happening>, n: nat)
    requires n <= |hs| && FairRun(hs)
    ensures var s, late := RoomAfter(ms, hs[..n]), WithLate(ms, hs, n);
      && TablesOk(ms, s.adding, s.buying) && TablesOk(ms, late, s.buying) && 0 <= s.time
      && (forall a :: a in late && s.time < a.time ==> a in s.adding)
      && FutureAdds(late, s.time) == FutureAdds(s.adding, s.time)
  {
    var s := RoomAfter(ms, hs[..n]);
    assert forall h :: h in hs[..n] ==> h in hs;
    assert hs[..n][..0] == [];
    LaterRun(ms, hs[..n], 0);
    RoomStaysValid(ms, hs[..n]);
    EntriesNonNegative(ms, hs[..n]);
    LateIsNonNegative(ms, hs, n);
    hide LateIsu, WithIsu;
    LateRowStaysPast(s.adding, LateIsu(ms, hs, n), s.time);
  }

  /** The log explains every state with its late isu, unless a copy it does not count was bought by its time. */
  lemma LogExplainsLate(ms: Masters, hs: seq<Happening>, n: nat, d: Dicts)
    requires n <= |hs| && FairRun(hs) && DictsOf(LogOf(ms, hs), d) && NextCopyIsLater(ms, hs, n)
    ensures var s := RoomAfter(ms, hs[..n]); Explains(d, WithLate(ms, hs, n), s.buying, s.time)
  {
    var s := RoomAfter(ms, hs[..n]);
    LateTablesAreSound(ms, hs, n);
    WithLateIsFinal(ms, hs, n);
    hide RoomAfter, WithLate, LogOf, NextCopyIsLater, TablesOk, HoldsFinally;
    AddsAreExplained(ms, hs, n, d, WithLate(ms, hs, n), s.time);
    BuysAreExplained(ms, hs, n, d);
  }

  /** With the late isu the window opens higher, and that is all. */
  lemma LateWindowIsRaised(ms: Masters, adding: seq<Adding>, late: seq<Adding>, buying: seq<Buying>, c: int)
    requires FutureAdds(late, c) == FutureAdds(adding, c)
    ensures WindowOf(ms, late, buying, c) == Raised(WindowOf(ms, adding, buying, c), Balance(ms, late, buying, c))
  {
  }

  lemma RaisedListsItems(items: seq<ItemStatus>, v: Window, base: int, bought: map<int, nat>)
    requires ListsItems(items, v, bought)
    ensures ListsItems(items, Raised(v, base), bought)
  {
    hide ItemView;
    forall k | 0 <= k < |items|
      ensures items[k] == ItemView(Raised(v, base), items[k].itemId, GetOr(bought, items[k].itemId, 0))
    {
      RaisedIsAlike(v, base);
      ViewsAgree(v, Raised(v, base), items[k].itemId, GetOr(bought, items[k].itemId, 0));
    }
  }

  lemma StatusListsLate(ms: Masters, hs: seq<Happening>, n: nat, st: GameStatus)
    requires n <= |hs| && FairRun(hs)
    requires var s := RoomAfter(ms, hs[..n]); IsStatusOf(st, ms, s.adding, s.buying, s.time)
    ensures var s := RoomAfter(ms, hs[..n]); Lists(ms, st, WithLate(ms, hs, n), s.buying, s.time)
  {
    var s, late := RoomAfter(ms, hs[..n]), WithLate(ms, hs, n);
    LateTablesAreSound(ms, hs, n);
    hide RoomAfter, WithLate, TablesOk, ListsItems, ListsTimes, ListsAdds, BoughtMap, Balance;
    StartsAt(ms, st, s.adding, s.buying, s.time);
    LateWindowIsRaised(ms, s.adding, late, s.buying, s.time);
    RaisedListsItems(st.items, WindowOf(ms, s.adding, s.buying, s.time), Balance(ms, late, s.buying, s.time),
      BoughtMap(ms, s.buying));
  }

  /** A copy bought next and by the state's time is in the log, but not in the status. */
  lemma NextCopyIsMissed(ms: Masters, hs: seq<Happening>, n: nat, st: GameStatus, d: Dicts)
    requires n <= |hs| && EverythingAnswered(hs) && DictsOf(LogOf(ms, hs), d) && !NextCopyIsLater(ms, hs, n)
    requires var s := RoomAfter(ms, hs[..n]); Lists(ms, st, WithLate(ms, hs, n), s.buying, s.time)
    ensures !FitsLog(st, d) && !BackedByLog(ms, st, d)
  {
    hide RoomAfter, LogOf, NextCopyIsLater, WithLate, Lists, EverythingAnswered, Bought, FitsLog, BackedByLog, DictsOf;
    var s := RoomAfter(ms, hs[..n]);
    var b := NextCopyOf(ms, hs, n);
    EndRowIsConfirmed(ms, hs, d, b);
    UncountedIsRefused(ms, st, d, WithLate(ms, hs, n), s.buying, s.time, b);
  }

  lemma NextCopyOf(ms: Masters, hs: seq<Happening>, n: nat) returns (b: Buying)
    requires n <= |hs| && !NextCopyIsLater(ms, hs, n)
    ensures var s := RoomAfter(ms, hs[..n]);
            b in RoomAfter(ms, hs).buying && b.ordinal == Bought(s.buying, b.item) + 1 && b.time <= s.time
  {
    var s := RoomAfter(ms, hs[..n]);
    b :| b in RoomAfter(ms, hs).buying && b.ordinal == Bought(s.buying, b.item) + 1 && b.time <= s.time;
  }

  lemma EndRowIsConfirmed(ms: Masters, hs: seq<Happening>, d: Dicts, b: Buying)
    requires EverythingAnswered(hs) && DictsOf(LogOf(ms, hs), d) && b in RoomAfter(ms, hs).buying
    ensures b.item in ms && CopyOf(b) in d.buys && d.buys[CopyOf(b)] == b.time
  {
    hide RoomAfter, LogOf, EverythingAnswered, DictsOf, InOrdinalOrder, RowLogged, OneSuccessPerCopy;
    RoomStaysValid(ms, hs);
    RowsAreLogged(ms, hs);
    CopiesSucceedOnce(ms, hs);
    EntriesAnswered(ms, hs);
    AnsweredRowIsConfirmed(LogOf(ms, hs), d, b);
  }

  lemma UncountedIsRefused(ms: Masters, st: GameStatus, d: Dicts, adding: seq<Adding>, buying: seq<Buying>, c: int,
                           b: Buying)
    requires Lists(ms, st, adding, buying, c) && b.item in ms && b.ordinal == Bought(buying, b.item) + 1
    requires CopyOf(b) in d.buys && d.buys[CopyOf(b)] <= c
    ensures !FitsLog(st, d) && !BackedByLog(ms, st, d)
  {
    hide ListsItems, ListsAdds, TablesOk, FitsLog, BackedByLog, Bought, WindowOf, BoughtMap, CountsRight;
    ListedCountsAreRight(ms, adding, buying, c, st.items);
    var k := CountedItem(ms, st.items, buying, c, b.item);
    assert CopyOf(b) == Copy(st.items[k].itemId, st.items[k].countBought);
    MissedIsRefused(ms, st, d, k);
  }

  lemma CountedItem(ms: Masters, items: seq<ItemStatus>, buying: seq<Buying>, c: int, i: int) returns (k: nat)
    requires CountsRight(ms, items, buying, c) && i in ms
    ensures k < |items| && items[k].itemId == i && items[k].countBought == Bought(buying, i)
  {
    k :| 0 <= k < |items| && items[k].itemId == i;
  }

  lemma MissedIsRefused(ms: Masters, st: GameStatus, d: Dicts, k: nat)
    requires k < |st.items| && |st.schedule| > 0 && !NothingMissed(d, st.schedule[0].time, st.items[k])
    ensures !FitsLog(st, d) && !BackedByLog(ms, st, d)
  {
    assert !ItemFits(d, st.schedule[0].time, st.items[k]);
  }

  lemma AnsweredRowIsConfirmed(log: seq<Entry>, d: Dicts, b: Buying)
    requires DictsOf(log, d) && OneSuccessPerCopy(log) && RowLogged(log, b) && forall e :: e in log ==> e.answered
    ensures CopyOf(b) in d.buys && d.buys[CopyOf(b)] == b.time
  {
    var e :| e in log && e.success && Buys(e, CopyOf(b)) && e.req.time == b.time;
    assert Succeeded(e);
  }

  /**
   No copy bought next is dated by the status's time, the purchases counted are in time order from then on and within
   the window, and, with the later adds of the status's own time, the balance is not negative and the status shows the
   schedule and the on-sale times searched on it.
   */
  ghost predicate PassesWithLate(ms: Masters, hs: seq<Happening>, n: nat, st: GameStatus)
    requires n <= |hs|
  {
    var s, late := RoomAfter(ms, hs[..n]), WithLate(ms, hs, n);
    && NextCopyIsLater(ms, hs, n) && Timely(s.buying, s.time) && 0 <= Balance(ms, late, s.buying, s.time)
    && ShowsSchedule(ms, st, late, s.buying, s.time) && ShowsSearched(ms, st, late, s.buying, s.time)
  }

  /** The same, with purchases dated by the status's time merely first, and with the true on-sale times. */
  ghost predicate AcceptedWithLate(ms: Masters, hs: seq<Happening>, n: nat, st: GameStatus)
    requires n <= |hs|
  {
    var s, late := RoomAfter(ms, hs[..n]), WithLate(ms, hs, n);
    && NextCopyIsLater(ms, hs, n) && BuiltFirst(s.buying, s.time) && 0 <= Balance(ms, late, s.buying, s.time)
    && ShowsSchedule(ms, st, late, s.buying, s.time) && ShowsOnSale(ms, st, late, s.buying, s.time)
  }

  /** The fast validator's verdict on any status of an answered run, exactly. */
  lemma RunVerdict(ms: Masters, hs: seq<Happening>, n: nat, st: GameStatus, d: Dicts)
    requires n <= |hs| && FairRun(hs) && EverythingAnswered(hs) && DictsOf(LogOf(ms, hs), d)
    requires var s := RoomAfter(ms, hs[..n]); IsStatusOf(st, ms, s.adding, s.buying, s.time)
    ensures |st.schedule| > 0
    ensures BenchVerdict(ms, st, d) <==> PassesWithLate(ms, hs, n, st)
  {
    var s, late := RoomAfter(ms, hs[..n]), WithLate(ms, hs, n);
    StatusListsLate(ms, hs, n, st);
    EntriesAnswered(ms, hs);
    NothingOpen(LogOf(ms, hs), d);
    hide RoomAfter, WithLate, LogOf, NextCopyIsLater, IsStatusOf, EverythingAnswered, DictsOf, Timely, Explains,
      FitsLog, PassesBetween, AllAnswered, Balance, ShowsSchedule, ShowsSearched;
    if NextCopyIsLater(ms, hs, n) {
      LogExplainsLate(ms, hs, n, d);
      ListedVerdict(ms, st, d, late, s.buying, s.time);
    } else {
      NextCopyIsMissed(ms, hs, n, st, d);
    }
  }

  /** And the slow validator's. */
  lemma RunAcceptance(ms: Masters, hs: seq<Happening>, n: nat, st: GameStatus, d: Dicts)
    requires n <= |hs| && FairRun(hs) && EverythingAnswered(hs) && DictsOf(LogOf(ms, hs), d)
    requires var s := RoomAfter(ms, hs[..n]); IsStatusOf(st, ms, s.adding, s.buying, s.time)
    ensures |st.schedule| > 0
    ensures StatusAccepts(ms, st, d) <==> AcceptedWithLate(ms, hs, n, st)
  {
    var s, late := RoomAfter(ms, hs[..n]), WithLate(ms, hs, n);
    StatusListsLate(ms, hs, n, st);
    EntriesAnswered(ms, hs);
    NothingOpen(LogOf(ms, hs), d);
    hide RoomAfter, WithLate, LogOf, NextCopyIsLater, IsStatusOf, EverythingAnswered, DictsOf, BuiltFirst, Explains,
      BackedByLog, Matches, AllAnswered, Balance, ShowsSchedule, ShowsOnSale;
    if NextCopyIsLater(ms, hs, n) {
      LogExplainsLate(ms, hs, n, d);
      ListedIsAccepted(ms, st, d, late, s.buying, s.time);
    } else {
      NextCopyIsMissed(ms, hs, n, st, d);
    }
  }

  // ---- All the statuses of a run ------------------------------------------------------------------------------------

  /** Statuses of the run, each computed when so many happenings were done. */
  ghost predicate AllComputed(ms: Masters, hs: seq<Happening>, reports: seq<Report>)
  {
    forall k :: 0 <= k < |reports| ==>
      reports[k].n <= |hs| && var s := RoomAfter(ms, hs[..reports[k].n]);
        IsStatusOf(reports[k].st, ms, s.adding, s.buying, s.time)
  }

  /** The fast validation of a fully answered run, its statuses as they may be, solvent or not. */
  lemma AnsweredRunIsAccepted(ms: Masters, hs: seq<Happening>, reports: seq<Report>, d: Dicts)
    requires FairRun(hs) && EverythingAnswered(hs) && AllComputed(ms, hs, reports) && DictsOf(LogOf(ms, hs), d)
    ensures Verdict(ms, false, d, ShownBy(reports))
      <==> forall k :: 0 <= k < |reports| ==> PassesWithLate(ms, hs, reports[k].n, reports[k].st)
  {
    hide FairRun, EverythingAnswered, LogOf, DictsOf, PassesWithLate, BenchVerdict, IsStatusOf;
    forall k | 0 <= k < |reports|
      ensures Passes(ms, d, ShownBy(reports)[k]) <==> PassesWithLate(ms, hs, reports[k].n, reports[k].st)
    {
      RunVerdict(ms, hs, reports[k].n, reports[k].st, d);
    }
  }

  /** The pretest of a fully answered run. */
  lemma AnsweredPretestIsAccepted(ms: Masters, hs: seq<Happening>, reports: seq<Report>, d: Dicts)
    requires FairRun(hs) && EverythingAnswered(hs) && AllComputed(ms, hs, reports) && DictsOf(LogOf(ms, hs), d)
    ensures LogAcceptable(true, LogOf(ms, hs))
    ensures Verdict(ms, true, d, ShownBy(reports)) <==>
      && InTimeOrder(RoomAfter(ms, hs).buying)
      && forall k :: 0 <= k < |reports| ==> AcceptedWithLate(ms, hs, reports[k].n, reports[k].st)
  {
    hide FairRun, EverythingAnswered, LogOf, DictsOf, AllComputed, AcceptedWithLate, InTimeOrder, OrderedItem,
      RoomAfter, LogAcceptable, AllAccepted;
    HonestLogIsAcceptable(ms, hs);
    EntriesAnswered(ms, hs);
    AnsweredLogIsAcceptable(LogOf(ms, hs));
    OrderedExactly(ms, hs, d);
    AllAcceptedExactly(ms, hs, reports, d);
  }

  lemma AnsweredLogIsAcceptable(log: seq<Entry>)
    requires LogAcceptable(false, log) && forall e :: e in log ==> e.answered
    ensures LogAcceptable(true, log)
  {
  }

  lemma AllAcceptedExactly(ms: Masters, hs: seq<Happening>, reports: seq<Report>, d: Dicts)
    requires FairRun(hs) && EverythingAnswered(hs) && AllComputed(ms, hs, reports) && DictsOf(LogOf(ms, hs), d)
    ensures AllAccepted(ms, d, ShownBy(reports))
      <==> forall k :: 0 <= k < |reports| ==> AcceptedWithLate(ms, hs, reports[k].n, reports[k].st)
  {
    hide FairRun, EverythingAnswered, LogOf, DictsOf, AcceptedWithLate, StatusAccepts, IsStatusOf, RoomAfter;
    forall k | 0 <= k < |reports|
      ensures Fits(ms, d, ShownBy(reports)[k]) <==> AcceptedWithLate(ms, hs, reports[k].n, reports[k].st)
    {
      RunAcceptance(ms, hs, reports[k].n, reports[k].st, d);
    }
  }

  // ---- Late requests in the small shop ------------------------------------------------------------------------------

  lemma Opens(ms: Masters, st: GameStatus, adding: seq<Adding>, buying: seq<Buying>, c: int)
    requires ShowsSchedule(ms, st, adding, buying, c)
    ensures |st.schedule| > 0 && st.schedule[0].milliIsu == Big2Exp(Balance(ms, adding, buying, c))
  {
    var v := WindowOf(ms, adding, buying, c);
    assert st.schedule[0] == RoundPoint(ScheduleTo(v, Horizon(v))[0]);
  }

  /** A status that passes shows a balance the late isu leaves the same, in the digits it is shown with. */
  lemma LateIsuMustVanish(ms: Masters, hs: seq<Happening>, n: nat, st: GameStatus, d: Dicts)
    requires n <= |hs| && FairRun(hs) && EverythingAnswered(hs) && DictsOf(LogOf(ms, hs), d)
    requires var s := RoomAfter(ms, hs[..n]); IsStatusOf(st, ms, s.adding, s.buying, s.time)
    ensures |st.schedule| > 0
    ensures BenchVerdict(ms, st, d) ==>
      var s := RoomAfter(ms, hs[..n]);
      var balance := Balance(ms, s.adding, s.buying, s.time);
      0 <= balance + 1000 * LateIsu(ms, hs, n) && Big2Exp(balance + 1000 * LateIsu(ms, hs, n)) == Big2Exp(balance)
  {
    var s, late := RoomAfter(ms, hs[..n]), WithLate(ms, hs, n);
    RunVerdict(ms, hs, n, st, d);
    WithIsuTotal(s.adding, LateIsu(ms, hs, n), s.time, s.time);
    hide RoomAfter, LogOf, NextCopyIsLater, EverythingAnswered, DictsOf, BenchVerdict, LateIsu, Timely, WithIsu;
    assert Balance(ms, late, s.buying, s.time)
      == Balance(ms, s.adding, s.buying, s.time) + 1000 * LateIsu(ms, hs, n);
    assert ShowsSchedule(ms, st, s.adding, s.buying, s.time);
    hide Balance, ShowsSchedule, WithLate;
    Opens(ms, st, s.adding, s.buying, s.time);
    if BenchVerdict(ms, st, d) {
      Opens(ms, st, late, s.buying, s.time);
    }
  }

  lemma SameTimeRun(ms: Masters, isu: int)
    ensures var hs := [Asks(View(0)), Asks(AddIsu(isu, NOW))];
      RoomAfter(ms, hs[..1]) == RoomState(NOW, [], []) && LateIsu(ms, hs, 1) == isu
  {
    var look, add := Asks(View(0)), Asks(AddIsu(isu, NOW));
    assert [] + [look] == [look] && [look] + [add] == [look, add] && [look, add][..1] == [look];
    AcceptedNow(ms, [], EMPTY_ROOM, View(0));
    AcceptedNow(ms, [look], RoomState(NOW, [], []), AddIsu(isu, NOW));
    SingleSum(Adding(NOW, isu), IsuAt(NOW));
  }

  lemma Big2ExpIsZero(n: int)
    requires 0 < n
    ensures Big2Exp(n) != Big2Exp(0)
  {
    hide Big2Exp, Digits, Pow;
    Big2ExpTruncates(0);
    Big2ExpTruncates(n);
  }

  /** A status at NOW, then an add dated NOW: the log holds more isu by then than the status shows. */
  lemma SameTimeIsRefused(ms: Masters, isu: int, st: GameStatus, d: Dicts)
    requires var look, add := Asks(View(0)), Asks(AddIsu(isu, NOW));
      0 < isu && EndsWith(ms, [look], st) && DictsOf(LogOf(ms, [look, add]), d)
    ensures |st.schedule| > 0 && !BenchVerdict(ms, st, d)
  {
    var hs := [Asks(View(0)), Asks(AddIsu(isu, NOW))];
    assert hs[..1] == [Asks(View(0))];
    assert FairRun(hs) && EverythingAnswered(hs);
    SameTimeRun(ms, isu);
    assert Balance(ms, [], [], NOW) == 0;
    hide RoomAfter, LogOf, EverythingAnswered, FairRun, DictsOf, BenchVerdict, LateIsu, Balance, IsStatusOf;
    LateIsuMustVanish(ms, hs, 1, st, d);
    Big2ExpIsZero(1000 * isu);
  }

  /** The first copy is bought in the millisecond of the status before it. */
  function LatePurchase(p: Base): seq<Happening> { [Asks(AddIsu(p, NOW)), Asks(BuyItem(1, 0, NOW))] }

  /** The log then holds a copy the status should have counted. */
  lemma LatePurchaseIsRefused(p: Base, st: GameStatus, d: Dicts)
    requires EndsWith(Shop(p), LatePurchase(p)[..1], st) && DictsOf(LogOf(Shop(p), LatePurchase(p)), d)
    ensures |st.schedule| > 0 && !BenchVerdict(Shop(p), st, d)
  {
    hide Shop, RoomAfter, LogOf, EverythingAnswered, FairRun, DictsOf, BenchVerdict, EndsWith, NextCopyIsLater,
      LatePurchase;
    LatePurchaseRun(p);
    EarlierStatusIsRefused(Shop(p), LatePurchase(p), 1, st, d);
  }

  lemma EarlierStatusIsRefused(ms: Masters, hs: seq<Happening>, n: nat, st: GameStatus, d: Dicts)
    requires n <= |hs| && FairRun(hs) && EverythingAnswered(hs) && DictsOf(LogOf(ms, hs), d)
    requires EndsWith(ms, hs[..n], st) && !NextCopyIsLater(ms, hs, n)
    ensures |st.schedule| > 0 && !BenchVerdict(ms, st, d)
  {
    hide RoomAfter, LogOf, EverythingAnswered, FairRun, DictsOf, BenchVerdict, IsStatusOf, NextCopyIsLater, WithLate;
    RunVerdict(ms, hs, n, st, d);
  }

  lemma LatePurchaseRun(p: Base)
    ensures |LatePurchase(p)| == 2 && FairRun(LatePurchase(p)) && EverythingAnswered(LatePurchase(p))
    ensures !NextCopyIsLater(Shop(p), LatePurchase(p), 1)
  {
    hide Shop, RoomAfter;
    assert LatePurchase(p)[..1] == [Asks(AddIsu(p, NOW))];
    TwoAskFairly(AddIsu(p, NOW), BuyItem(1, 0, NOW));
    OneAdded(p, Adding(NOW, p));
    OneBought(p, Adding(NOW, p), NOW);
    assert Buying(1, 1, NOW) in RoomAfter(Shop(p), LatePurchase(p)).buying;
  }
}
