/**
 The slow validator, when every request was answered: it accepts exactly what calcStatus shows for the logged tables.
 */
module Answered {
  import opened BenchLog
  import opened Bracketing
  import opened Common
  import opened Format
  import opened Ledger
  import opened Rooms
  import opened Rows
  import opened Soundness
  import opened Status
  import opened StatusCheck
  import opened StatusReading
  import opened Sums
  import opened TableReading
  import opened Windows

  // ---- Windows with the same balance show the same -----------------------------------------------------------------

  lemma {:induction false} SameOnSale(v: Window, w: Window, need: int, t: int)
    requires Alike(v, w) && v.base == w.base && v.start <= t
    ensures OnSaleTo(v, need, t) == OnSaleTo(w, need, t)
    decreases t - v.start
  {
    if v.start < t {
      SameOnSale(v, w, need, t - 1);
      AlikeWindows(v, w, t);
    }
  }

  lemma SameSchedule(v: Window, w: Window, t: int)
    requires Alike(v, w) && v.base == w.base && v.start <= t
    ensures ScheduleTo(v, t) == ScheduleTo(w, t)
  {
    AlikeWindows(v, w, t);
  }

  lemma SameViewed(v: Window, w: Window, x: ItemStatus)
    requires Alike(v, w)
    ensures Viewed(v, x) <==> Viewed(w, x)
  {
    ViewsAgree(v, w, x.itemId, x.countBought);
  }

  lemma SameTimes(v: Window, w: Window, needs: map<int, int>, i: int)
    requires Alike(v, w) && v.base == w.base && i in needs
    ensures Lookup(OnSaleMap(v, needs, Horizon(v)), i) == Lookup(OnSaleMap(w, needs, Horizon(w)), i)
  {
    SameOnSale(v, w, needs[i], Horizon(v));
  }

  lemma SameMatches(st: GameStatus, v: Window, w: Window)
    requires Alike(v, w) && v.base == w.base
    ensures Matches(st, v) <==> Matches(st, w)
  {
    WindowsStartAlike(v, w);
    SameSchedule(v, w, Horizon(v));
    hide Alike, Viewed, OnSaleMap, RoundSchedule;
    forall k | 0 <= k < |st.items|
      ensures Viewed(v, st.items[k]) <==> Viewed(w, st.items[k])
    {
      SameViewed(v, w, st.items[k]);
    }
    var needs := Needs(v.ms, BoughtCounts(st.items));
    forall i | i in v.ms
      ensures Lookup(OnSaleMap(v, needs, Horizon(v)), i) == Lookup(OnSaleMap(w, needs, Horizon(w)), i)
    {
      SameTimes(v, w, needs, i);
    }
  }

  // ---- The logged tables --------------------------------------------------------------------------------------------

  /** A dictionary's entries up to c as rows, for the given keys. */
  function RowsUpTo(d: map<int, int>, ks: seq<int>, c: int): seq<Adding>
  {
    if |ks| == 0 then []
    else
      var t, rest := ks[|ks| - 1], RowsUpTo(d, ks[..|ks| - 1], c);
      if t in d && t <= c then rest + [Adding(t, d[t])] else rest
  }

  /** The adds logged up to the status's time, then the adds the status itself announces. */
  ghost function LoggedAdding(st: GameStatus, d: Dicts): seq<Adding>
    requires |st.schedule| > 0
  {
    RowsUpTo(d.adds, AnyOrder(d.adds.Keys), st.schedule[0].time) + st.adding
  }

  /** The first count_bought logged purchases of each item. */
  function LoggedBuying(st: GameStatus, d: Dicts): seq<Buying> { Flatten(st.items, AllPart(Logged(d))) }

  lemma {:induction false} RowsUpToTotal(d: map<int, int>, ks: seq<int>, c: int)
    ensures Sum(RowsUpTo(d, ks, c), IsuBy(c)) == Sum(ks, ValueBy(d, c))
    ensures forall k :: 0 <= k < |RowsUpTo(d, ks, c)| ==> RowsUpTo(d, ks, c)[k].time <= c
  {
    if |ks| > 0 {
      RowsUpToTotal(d, ks[..|ks| - 1], c);
    }
  }

  lemma {:induction false} FutureOfRows(past: seq<Adding>, future: seq<Adding>, c: int)
    requires forall k :: 0 <= k < |past| ==> past[k].time <= c
    requires forall k :: 0 <= k < |future| ==> c < future[k].time
    ensures FutureAdds(past + future, c) == AddsOf(future)
    ensures Sum(past + future, IsuBy(c)) == Sum(past, IsuBy(c))
    decreases |past| + |future|
  {
    if |future| > 0 {
      var n := |future| - 1;
      FutureOfRows(past, future[..n], c);
      assert (past + future)[..|past + future| - 1] == past + future[..n];
    } else if |past| > 0 {
      var n := |past| - 1;
      FutureOfRows(past[..n], [], c);
      assert past + [] == past && past[..n] + [] == past[..n];
    }
  }

  lemma LoggedAddingReads(st: GameStatus, d: Dicts)
    requires |st.schedule| > 0 && forall k :: 0 <= k < |st.adding| ==> st.schedule[0].time < st.adding[k].time
    ensures FutureAdds(LoggedAdding(st, d), st.schedule[0].time) == AddsOf(st.adding)
    ensures Sum(LoggedAdding(st, d), IsuBy(st.schedule[0].time)) == DictSum(d.adds, st.schedule[0].time)
  {
    var c, ks := st.schedule[0].time, AnyOrder(d.adds.Keys);
    RowsUpToTotal(d.adds, ks, c);
    FutureOfRows(RowsUpTo(d.adds, ks, c), st.adding, c);
  }

  lemma {:induction false} CopiesInOrder(ms: Masters, xs: seq<Buying>, item: int, n: nat, f: (int, nat) -> int)
    requires KnownItems(ms, xs) && InOrdinalOrder(xs) && item in ms && Bought(xs, item) == 0
    ensures KnownItems(ms, xs + Copies(item, 0, n, f)) && InOrdinalOrder(xs + Copies(item, 0, n, f))
    ensures forall i :: Bought(xs + Copies(item, 0, n, f), i) == Bought(xs, i) + (if i == item then n else 0)
  {
    if n == 0 {
      assert xs + Copies(item, 0, 0, f) == xs;
    } else {
      var before, b := xs + Copies(item, 0, n - 1, f), Buying(item, n, f(item, n));
      hide InOrdinalOrder, KnownItems;
      CopiesInOrder(ms, xs, item, n - 1, f);
      NextRowKeepsOrder(ms, before, item, b.time);
      assert xs + Copies(item, 0, n, f) == before + [b];
      forall i ensures Bought(before + [b], i) == Bought(before, i) + OfItem(i)(b) {
        SumPush(before, b, OfItem(i));
      }
    }
  }

  /** The counts of copies in the table are those of the items, and 0 for any other id. */
  ghost predicate CountsCopies(buying: seq<Buying>, items: seq<ItemStatus>)
  {
    && (forall k :: 0 <= k < |items| ==> Bought(buying, items[k].itemId) == items[k].countBought)
    && (forall i :: i !in IdsOf(items) ==> Bought(buying, i) == 0)
  }

  function IdsOf(items: seq<ItemStatus>): set<int> { set x | x in items :: x.itemId }

  lemma NextItemIsSound(ms: Masters, buying: seq<Buying>, items: seq<ItemStatus>, x: ItemStatus, f: (int, nat) -> int)
    requires KnownItems(ms, buying) && InOrdinalOrder(buying) && CountsCopies(buying, items) && x.itemId in ms
      && x.itemId !in IdsOf(items)
    ensures var next := buying + AllPart(f)(x);
      KnownItems(ms, next) && InOrdinalOrder(next) && CountsCopies(next, items + [x])
  {
    hide KnownItems, InOrdinalOrder;
    CopiesInOrder(ms, buying, x.itemId, x.countBought, f);
    forall i ensures i in IdsOf(items + [x]) <==> i in IdsOf(items) || i == x.itemId {
      assert forall y :: y in items + [x] <==> y in items || y == x;
    }
    forall k | 0 <= k < |items| ensures items[k].itemId in IdsOf(items) {
      assert items[k] in items;
    }
  }

  /** The logged purchases make a table calcStatus can read. */
  lemma {:induction false} LoggedTableIsSound(ms: Masters, items: seq<ItemStatus>, f: (int, nat) -> int)
    requires UniqueIds(items) && forall k :: 0 <= k < |items| ==> items[k].itemId in ms
    ensures KnownItems(ms, Flatten(items, AllPart(f))) && InOrdinalOrder(Flatten(items, AllPart(f)))
    ensures CountsCopies(Flatten(items, AllPart(f)), items)
  {
    if |items| > 0 {
      hide InOrdinalOrder, KnownItems, CountsCopies;
      var n := |items| - 1;
      LoggedTableIsSound(ms, items[..n], f);
      assert items[..n] + [items[n]] == items;
      NextItemIsSound(ms, Flatten(items[..n], AllPart(f)), items[..n], items[n], f);
    }
  }

  lemma AllItemsListed(ms: Masters, items: seq<ItemStatus>)
    requires ItemsOk(ms, items)
    ensures UniqueIds(items) && forall i :: i in ms <==> exists k :: 0 <= k < |items| && items[k].itemId == i
  {
    var ids := seq(|items|, k requires 0 <= k < |items| => items[k].itemId);
    forall i | i in ms ensures exists k :: 0 <= k < |items| && items[k].itemId == i {
      CoverIds(ids, ms.Keys, i);
      var k :| 0 <= k < |ids| && ids[k] == i;
      assert items[k].itemId == i;
    }
  }

  lemma CoverIds(ids: seq<int>, s: set<int>, i: int)
    requires Distinct(ids) && |ids| == |s| && i in s
    requires forall k :: 0 <= k < |ids| ==> ids[k] in s
    ensures i in ids
  {
    DistinctCovers(ids, s, i);
  }

  /** The window the slow validator reads is the window of the logged tables. */
  lemma LoggedWindowIsTables(ms: Masters, st: GameStatus, d: Dicts)
    requires FormatOk(ms, st) && BackedByLog(ms, st, d)
    ensures var v := WindowOf(ms, LoggedAdding(st, d), LoggedBuying(st, d), st.schedule[0].time);
            Alike(v, LoggedWindow(ms, st, d)) && v.base == LoggedWindow(ms, st, d).base
  {
    var c, f := st.schedule[0].time, Logged(d);
    AllItemsListed(ms, st.items);
    LoggedAddingReads(st, d);
    PartsOwnTheirRows(st.items, f);
    FlattenHolds(st.items, AllPart(f));
    forall x | x in st.items
      ensures x.countBuilt <= x.countBought && forall k: nat :: 1 <= k <= x.countBought ==>
        (f(x.itemId, k) <= c <==> k <= x.countBuilt)
    {
      var j :| 0 <= j < |st.items| && st.items[j] == x;
      assert CopiesAgree(d, c, x);
      forall k: nat | 1 <= k <= x.countBought ensures f(x.itemId, k) <= c <==> k <= x.countBuilt {
        assert CopyAgrees(d, c, x, k);
      }
    }
    ReadingIsWindow(ms, st, LoggedAdding(st, d), LoggedBuying(st, d), f, c);
  }

  // ---- Acceptance ---------------------------------------------------------------------------------------------------

  /** The two statuses say the same of schedule, items and on-sale times, in whatever order they list them. */
  ghost predicate AgreesWith(ms: Masters, st: GameStatus, cs: GameStatus)
  {
    && st.schedule == cs.schedule
    && (forall k :: 0 <= k < |st.items| ==> st.items[k] in cs.items)
    && (forall i :: i in ms ==> Lookup(OnSaleTable(st.onSale), i) == Lookup(OnSaleTable(cs.onSale), i))
  }

  lemma ListedItemIsView(w: Window, bought: map<int, nat>, items: seq<ItemStatus>, x: ItemStatus)
    requires ListsItems(items, w, bought) && x.itemId in w.ms && GetOr(bought, x.itemId, 0) == x.countBought
    ensures x in items <==> Viewed(w, x)
  {
    var k :| 0 <= k < |items| && items[k].itemId == x.itemId;
    assert items[k] in items;
  }

  lemma ItemsAgreement(items: seq<ItemStatus>, listed: seq<ItemStatus>, w: Window, bought: map<int, nat>)
    requires ListsItems(listed, w, bought) && forall k :: 0 <= k < |items| ==> items[k].itemId in w.ms
    requires forall k :: 0 <= k < |items| ==> GetOr(bought, items[k].itemId, 0) == items[k].countBought
    ensures (forall k :: 0 <= k < |items| ==> Viewed(w, items[k]))
      <==> (forall k :: 0 <= k < |items| ==> items[k] in listed)
  {
    hide Viewed, ListsItems;
    forall k | 0 <= k < |items| ensures items[k] in listed <==> Viewed(w, items[k]) {
      ListedItemIsView(w, bought, listed, items[k]);
    }
  }

  lemma CountsAgree(ms: Masters, items: seq<ItemStatus>, bought: map<int, nat>)
    requires ItemsOk(ms, items) && bought.Keys == ms.Keys && forall k :: 0 <= k < |items| ==>
      bought[items[k].itemId] == items[k].countBought
    ensures bought == BoughtCounts(items)
  {
    AllItemsListed(ms, items);
    CountsAreListed(items);
    SameTable(bought, BoughtCounts(items));
  }

  lemma MatchesIsAgreement(ms: Masters, st: GameStatus, cs: GameStatus, w: Window, bought: map<int, nat>)
    requires w.ms == ms && ItemsOk(ms, st.items) && Shows(cs, w, bought)
    requires bought.Keys == ms.Keys && forall k :: 0 <= k < |st.items| ==>
      bought[st.items[k].itemId] == st.items[k].countBought
    ensures Matches(st, w) <==> AgreesWith(ms, st, cs)
  {
    hide Viewed, ListsItems, ListsTimes, RoundSchedule, OnSaleMap;
    CountsAgree(ms, st.items, bought);
    ItemsAgreement(st.items, cs.items, w, bought);
    ListedTimesAre(cs.onSale, OnSaleMap(w, Needs(ms, bought), Horizon(w)));
  }

  lemma JudgedAlike(st: GameStatus, v: Window, w: Window)
    requires Alike(v, w) && v.base == w.base
    ensures SolventShown(v) && Matches(st, v) <==> SolventShown(w) && Matches(st, w)
  {
    SameSchedule(v, w, Horizon(v));
    SameMatches(st, v, w);
  }

  lemma AcceptsWhatTablesShow(ms: Masters, st: GameStatus, d: Dicts)
    requires FormatOk(ms, st) && BackedByLog(ms, st, d)
    ensures var v := WindowOf(ms, LoggedAdding(st, d), LoggedBuying(st, d), st.schedule[0].time);
            StatusAccepts(ms, st, d) <==> SolventShown(v) && Matches(st, v)
  {
    var v, w := WindowOf(ms, LoggedAdding(st, d), LoggedBuying(st, d), st.schedule[0].time), LoggedWindow(ms, st, d);
    LoggedWindowIsTables(ms, st, d);
    JudgedAlike(st, v, w);
  }

  lemma LoggedAgreement(ms: Masters, st: GameStatus, cs: GameStatus, adding: seq<Adding>, buying: seq<Buying>, c: int)
    requires ItemsOk(ms, st.items) && IsStatusOf(cs, ms, adding, buying, c)
    requires forall k :: 0 <= k < |st.items| ==> Bought(buying, st.items[k].itemId) == st.items[k].countBought
    ensures Matches(st, WindowOf(ms, adding, buying, c)) <==> AgreesWith(ms, st, cs)
  {
    hide Matches, AgreesWith, Shows, ListsAdds;
    MatchesIsAgreement(ms, st, cs, WindowOf(ms, adding, buying, c), BoughtMap(ms, buying));
  }

  /**
   For a status the log backs: it is accepted exactly if it agrees with the computed one and shows no negative
   balance.
   */
  lemma BackedAcceptance(ms: Masters, st: GameStatus, d: Dicts, cs: GameStatus)
    requires FormatOk(ms, st) && BackedByLog(ms, st, d)
    requires IsStatusOf(cs, ms, LoggedAdding(st, d), LoggedBuying(st, d), st.schedule[0].time)
    ensures StatusAccepts(ms, st, d) <==>
      && SolventShown(WindowOf(ms, LoggedAdding(st, d), LoggedBuying(st, d), st.schedule[0].time))
      && AgreesWith(ms, st, cs)
  {
    AcceptsWhatTablesShow(ms, st, d);
    AllItemsListed(ms, st.items);
    LoggedTableIsSound(ms, st.items, Logged(d));
    LoggedAgreement(ms, st, cs, LoggedAdding(st, d), LoggedBuying(st, d), st.schedule[0].time);
  }

  lemma RowTimesAreLogged(ms: Masters, st: GameStatus, d: Dicts, x: ItemStatus, k: nat)
    requires ItemsOk(ms, st.items) && x in st.items && 1 <= k <= x.countBought
    ensures RowTime(LoggedBuying(st, d), x.itemId, k) == Logged(d)(x.itemId, k)
  {
    var f, buying := Logged(d), LoggedBuying(st, d);
    AllItemsListed(ms, st.items);
    LoggedTableIsSound(ms, st.items, f);
    PartsOwnTheirRows(st.items, f);
    FlattenHolds(st.items, AllPart(f));
    CopiesHold(x.itemId, 0, x.countBought, f);
    var b := Buying(x.itemId, k, f(x.itemId, k));
    assert b in AllPart(f)(x);
    assert b in buying;
    CopyOfRow(buying, b);
  }

  lemma LoggedRowHolds(items: seq<ItemStatus>, f: (int, nat) -> int, b: Buying) returns (x: ItemStatus)
    requires UniqueIds(items) && b in Flatten(items, AllPart(f))
    ensures x in items && b.item == x.itemId && 1 <= b.ordinal <= x.countBought && b.time == f(x.itemId, b.ordinal)
  {
    PartsOwnTheirRows(items, f);
    FlattenHolds(items, AllPart(f));
    x :| x in items && b in AllPart(f)(x);
    CopiesHold(x.itemId, 0, x.countBought, f);
  }

  predicate Confirmed(d: Dicts, x: ItemStatus, k: nat)
    requires 1 <= k
  {
    Copy(x.itemId, k - 1) in d.buys
  }

  ghost predicate CopiesLogged(d: Dicts, x: ItemStatus)
  {
    forall k: nat :: 1 <= k <= x.countBought ==> Confirmed(d, x, k)
  }

  predicate LoggedBy(d: Dicts, item: int, k: nat, c: int) { Logged(d)(item, k) <= c }

  /** The item's logged purchases dated by c come first. */
  ghost predicate LoggedFirst(d: Dicts, c: int, x: ItemStatus)
  {
    forall j: nat, k: nat :: 1 <= j <= k <= x.countBought && LoggedBy(d, x.itemId, k, c) ==> LoggedBy(d, x.itemId, j, c)
  }

  /**
   Every announced add and every counted purchase is logged, those dated by c first, and none dated by c goes
   uncounted.
   */
  ghost predicate AllLogged(st: GameStatus, d: Dicts)
    requires |st.schedule| > 0
  {
    && (forall k :: 0 <= k < |st.adding| ==> AddBacked(d, st.adding[k]))
    && (forall k :: 0 <= k < |st.items| ==>
      CopiesLogged(d, st.items[k]) && LoggedFirst(d, st.schedule[0].time, st.items[k]))
    && (forall k :: 0 <= k < |st.items| ==> NothingMissed(d, st.schedule[0].time, st.items[k]))
  }

  lemma AgreedIsLogged(d: Dicts, c: int, x: ItemStatus)
    requires CopiesAgree(d, c, x)
    ensures CopiesLogged(d, x) && LoggedFirst(d, c, x)
  {
    forall k: nat | 1 <= k <= x.countBought
      ensures Confirmed(d, x, k) && (k <= x.countBuilt <==> LoggedBy(d, x.itemId, k, c))
    {
      assert CopyAgrees(d, c, x, k);
    }
  }

  lemma BackedIsLogged(ms: Masters, st: GameStatus, d: Dicts)
    requires |st.schedule| > 0 && BackedByLog(ms, st, d)
    ensures AllLogged(st, d)
  {
    forall k | 0 <= k < |st.items|
      ensures CopiesLogged(d, st.items[k]) && LoggedFirst(d, st.schedule[0].time, st.items[k])
    {
      AgreedIsLogged(d, st.schedule[0].time, st.items[k]);
    }
  }

  lemma LoggedTableBuiltFirst(st: GameStatus, d: Dicts, c: int)
    requires UniqueIds(st.items) && InOrdinalOrder(LoggedBuying(st, d)) && forall x :: x in st.items ==>
      LoggedFirst(d, c, x)
    ensures BuiltFirst(LoggedBuying(st, d), c)
  {
    var buying := LoggedBuying(st, d);
    forall j, k | 0 <= j < k < |buying| && buying[j].item == buying[k].item && buying[k].time <= c
      ensures buying[j].time <= c
    {
      assert buying[j] in buying && buying[k] in buying;
      var x := LoggedRowHolds(st.items, Logged(d), buying[j]);
      var y := LoggedRowHolds(st.items, Logged(d), buying[k]);
      OrdinalsDiffer(buying, j, k);
      assert x == y && LoggedFirst(d, c, x) && LoggedBy(d, x.itemId, buying[k].ordinal, c);
      assert LoggedBy(d, x.itemId, buying[j].ordinal, c);
    }
  }

  /** An item that shows the built count of the logged table agrees with the log copy by copy. */
  lemma CountedCopiesAgree(ms: Masters, st: GameStatus, d: Dicts, x: ItemStatus)
    requires FormatOk(ms, st) && CopiesLogged(d, x) && x in st.items
    requires InOrdinalOrder(LoggedBuying(st, d)) && BuiltFirst(LoggedBuying(st, d), st.schedule[0].time)
    requires x.countBought == Bought(LoggedBuying(st, d), x.itemId)
    requires x.countBuilt == Built(LoggedBuying(st, d), x.itemId, st.schedule[0].time)
    ensures CopiesAgree(d, st.schedule[0].time, x)
  {
    forall k: nat | 1 <= k <= x.countBought ensures CopyAgrees(d, st.schedule[0].time, x, k) {
      assert Confirmed(d, x, k);
      RowTimesAreLogged(ms, st, d, x, k);
      BuiltMeansDated(LoggedBuying(st, d), x.itemId, k, st.schedule[0].time);
    }
  }

  lemma LoggedTableIsRead(ms: Masters, st: GameStatus, d: Dicts)
    requires FormatOk(ms, st) && AllLogged(st, d)
    ensures InOrdinalOrder(LoggedBuying(st, d)) && BuiltFirst(LoggedBuying(st, d), st.schedule[0].time)
    ensures forall k :: 0 <= k < |st.items| ==>
      Bought(LoggedBuying(st, d), st.items[k].itemId) == st.items[k].countBought
  {
    AllItemsListed(ms, st.items);
    LoggedTableIsSound(ms, st.items, Logged(d));
    forall x | x in st.items ensures LoggedFirst(d, st.schedule[0].time, x) {
      var k :| 0 <= k < |st.items| && st.items[k] == x;
    }
    LoggedTableBuiltFirst(st, d, st.schedule[0].time);
  }

  lemma AgreeingCounts(ms: Masters, st: GameStatus, cs: GameStatus, adding: seq<Adding>, buying: seq<Buying>, c: int,
                       k: nat)
    requires AgreesWith(ms, st, cs) && IsStatusOf(cs, ms, adding, buying, c) && k < |st.items|
    ensures st.items[k].countBuilt == Built(buying, st.items[k].itemId, c)
  {
    ListedCountsAreRight(ms, adding, buying, c, cs.items);
    assert st.items[k] in cs.items;
  }

  lemma AgreeingCopiesAgree(ms: Masters, st: GameStatus, d: Dicts, cs: GameStatus, k: nat)
    requires FormatOk(ms, st) && AllLogged(st, d) && AgreesWith(ms, st, cs) && k < |st.items|
    requires IsStatusOf(cs, ms, LoggedAdding(st, d), LoggedBuying(st, d), st.schedule[0].time)
    ensures CopiesAgree(d, st.schedule[0].time, st.items[k])
  {
    var c, buying := st.schedule[0].time, LoggedBuying(st, d);
    LoggedTableIsRead(ms, st, d);
    assert CopiesLogged(d, st.items[k]);
    hide InOrdinalOrder, BuiltFirst, IsStatusOf, LoggedFirst, CopiesLogged, AgreesWith, CopiesAgree, LoggedBuying,
      LoggedAdding;
    AgreeingCounts(ms, st, cs, LoggedAdding(st, d), buying, c, k);
    CountedCopiesAgree(ms, st, d, st.items[k]);
  }

  lemma LoggedAndAgreedIsBacked(ms: Masters, st: GameStatus, d: Dicts)
    requires |st.schedule| > 0 && AllLogged(st, d) && forall k :: 0 <= k < |st.items| ==>
      CopiesAgree(d, st.schedule[0].time, st.items[k])
    ensures BackedByLog(ms, st, d)
  {
    hide CopiesAgree, CopiesLogged, LoggedFirst, NothingMissed, AddBacked;
  }

  lemma AgreeingIsBacked(ms: Masters, st: GameStatus, d: Dicts, cs: GameStatus)
    requires FormatOk(ms, st) && AllLogged(st, d) && AgreesWith(ms, st, cs)
    requires IsStatusOf(cs, ms, LoggedAdding(st, d), LoggedBuying(st, d), st.schedule[0].time)
    ensures BackedByLog(ms, st, d)
  {
    assert |st.schedule| > 0;
    hide IsStatusOf, FormatOk, AgreesWith, CopiesAgree, AllLogged, LoggedAdding, LoggedBuying, BackedByLog;
    forall k | 0 <= k < |st.items| ensures CopiesAgree(d, st.schedule[0].time, st.items[k]) {
      AgreeingCopiesAgree(ms, st, d, cs, k);
    }
    LoggedAndAgreedIsBacked(ms, st, d);
  }

  /**
   A well-formed status is accepted exactly if everything it counts is logged, purchases dated by its time first, and
   nothing logged by its time is missing, and it agrees with what calcStatus computes from the
   logged adds up to its time, its own announced adds and the first count_bought logged purchases, none of the
   balances shown being negative.
   */
  lemma AcceptsWhatCalcStatusShows(ms: Masters, st: GameStatus, d: Dicts, cs: GameStatus)
    requires FormatOk(ms, st)
    requires IsStatusOf(cs, ms, LoggedAdding(st, d), LoggedBuying(st, d), st.schedule[0].time)
    ensures StatusAccepts(ms, st, d) <==>
      && AllLogged(st, d)
      && SolventShown(WindowOf(ms, LoggedAdding(st, d), LoggedBuying(st, d), st.schedule[0].time))
        && AgreesWith(ms, st, cs)
  {
    if BackedByLog(ms, st, d) {
      BackedIsLogged(ms, st, d);
      BackedAcceptance(ms, st, d, cs);
    } else if AllLogged(st, d) && AgreesWith(ms, st, cs) {
      AgreeingIsBacked(ms, st, d, cs);
    }
  }

  ghost predicate BuysAnswered(d: Dicts) { d.earliest == map[] && d.latest == map[] }

  /** No request is left without an answer. */
  ghost predicate AllAnswered(d: Dicts) { d.addsOpen == map[] && BuysAnswered(d) }

  /** A row's copy is confirmed with the row's time. */
  lemma RowIsLogged(d: Dicts, buying: seq<Buying>, c: int, item: int, k: nat)
    requires InOrdinalOrder(buying) && BuysExplained(d, buying, c) && BuysAnswered(d) && 1 <= k <= Bought(buying, item)
    ensures Copy(item, k - 1) in d.buys && d.buys[Copy(item, k - 1)] == Logged(d)(item, k) == RowTime(buying, item, k)
  {
    RowOfCopy(buying, item, k);
    assert RowExplained(d, Buying(item, k, RowTime(buying, item, k)));
  }

  lemma LoggedIsTrue(d: Dicts, buying: seq<Buying>, c: int, items: seq<ItemStatus>)
    requires InOrdinalOrder(buying) && BuiltFirst(buying, c) && BuysExplained(d, buying, c) && BuysAnswered(d)
    requires forall x :: x in items ==> TrueCounts(x, buying, c)
    ensures forall x :: x in items ==> CopiesAgree(d, c, x) && NothingMissed(d, c, x)
    ensures forall x, k: nat :: x in items && 1 <= k <= x.countBought ==>
      Logged(d)(x.itemId, k) == RowTime(buying, x.itemId, k)
  {
    forall x, k: nat | x in items && 1 <= k <= x.countBought
      ensures CopyAgrees(d, c, x, k) && Logged(d)(x.itemId, k) == RowTime(buying, x.itemId, k)
    {
      RowIsLogged(d, buying, c, x.itemId, k);
      BuiltMeansDated(buying, x.itemId, k, c);
    }
    forall x | x in items ensures NothingMissed(d, c, x) {
      assert TrueCounts(x, buying, c);
    }
  }

  lemma {:induction false} SameCopies(item: int, lo: nat, hi: nat, f: (int, nat) -> int, g: (int, nat) -> int)
    requires forall k: nat :: lo < k <= hi ==> f(item, k) == g(item, k)
    ensures Copies(item, lo, hi, f) == Copies(item, lo, hi, g)
    decreases hi
  {
    if lo < hi {
      SameCopies(item, lo, hi - 1, f, g);
    }
  }

  lemma LoggedReadingIsTrue(d: Dicts, buying: seq<Buying>, items: seq<ItemStatus>)
    requires forall x :: x in items ==> x.countBuilt <= x.countBought
    requires forall x, k: nat :: x in items && 1 <= k <= x.countBought ==>
      Logged(d)(x.itemId, k) == RowTime(buying, x.itemId, k)
    ensures Flatten(items, BuiltPart(Logged(d))) == Flatten(items, BuiltPart(RowTimes(buying)))
    ensures Flatten(items, FuturePart(Logged(d))) == Flatten(items, FuturePart(RowTimes(buying)))
  {
    var f, g := Logged(d), RowTimes(buying);
    forall x | x in items ensures BuiltPart(f)(x) == BuiltPart(g)(x) && FuturePart(f)(x) == FuturePart(g)(x) {
      SameCopies(x.itemId, 0, x.countBuilt, f, g);
      SameCopies(x.itemId, x.countBuilt, x.countBought, f, g);
    }
    FlattenSame(items, BuiltPart(f), BuiltPart(g));
    FlattenSame(items, FuturePart(f), FuturePart(g));
  }

  lemma ItemsCountTrue(ms: Masters, adding: seq<Adding>, buying: seq<Buying>, c: int, items: seq<ItemStatus>)
    requires ListsItems(items, WindowOf(ms, adding, buying, c), BoughtMap(ms, buying))
    ensures forall x :: x in items ==> TrueCounts(x, buying, c)
  {
    ListedCountsAreRight(ms, adding, buying, c, items);
  }

  lemma ComputedIsBacked(ms: Masters, st: GameStatus, d: Dicts, adding: seq<Adding>, buying: seq<Buying>, c: int)
    requires Drawn(ms, st, adding, buying, c) && BuiltFirst(buying, c) && Explains(d, adding, buying, c)
      && AllAnswered(d)
    ensures |st.schedule| > 0 && BackedByLog(ms, st, d)
  {
    StartsAt(ms, st, adding, buying, c);
    ListedAddsAreRows(adding, c, st.adding);
    ItemsCountTrue(ms, adding, buying, c, st.items);
    LoggedIsTrue(d, buying, c, st.items);
    forall k | 0 <= k < |st.items| ensures CopiesAgree(d, c, st.items[k]) && NothingMissed(d, c, st.items[k]) {
      assert st.items[k] in st.items;
    }
  }

  lemma LoggedIsuIsTrue(d: Dicts, adding: seq<Adding>, c: int)
    requires UniqueTimes(adding) && AddsExplained(d, adding, c) && d.addsOpen == map[]
    ensures DictSum(d.adds, c) == Sum(adding, IsuBy(c))
  {
    LoggedIsuBrackets(d, adding, c);
  }

  /** If the purchases are answered and the confirmed isu is the table's, the log reads as the tables do. */
  lemma DrawnReadsTrue(ms: Masters, st: GameStatus, d: Dicts, adding: seq<Adding>, buying: seq<Buying>, c: int)
    requires Drawn(ms, st, adding, buying, c) && BuiltFirst(buying, c) && BuysExplained(d, buying, c)
    requires BuysAnswered(d) && DictSum(d.adds, c) == Sum(adding, IsuBy(c))
    ensures |st.schedule| > 0 && LoggedWindow(ms, st, d) == TrueReading(ms, st, adding, buying, c)
  {
    StartsAt(ms, st, adding, buying, c);
    ItemsCountTrue(ms, adding, buying, c, st.items);
    LoggedIsTrue(d, buying, c, st.items);
    forall x | x in st.items ensures x.countBuilt <= x.countBought {
      BuiltAtMostBought(buying, x.itemId, c);
      assert TrueCounts(x, buying, c);
    }
    LoggedReadingIsTrue(d, buying, st.items);
  }

  lemma ComputedReadsTrue(ms: Masters, st: GameStatus, d: Dicts, adding: seq<Adding>, buying: seq<Buying>, c: int)
    requires Drawn(ms, st, adding, buying, c) && BuiltFirst(buying, c) && Explains(d, adding, buying, c)
      && AllAnswered(d)
    ensures |st.schedule| > 0 && LoggedWindow(ms, st, d) == TrueReading(ms, st, adding, buying, c)
  {
    LoggedIsuIsTrue(d, adding, c);
    DrawnReadsTrue(ms, st, d, adding, buying, c);
  }

  /** If the log bears out every copy the status counts as built, the rows dated by c come first. */
  lemma BackedMeansBuiltFirst(ms: Masters, st: GameStatus, d: Dicts, adding: seq<Adding>, buying: seq<Buying>, c: int)
    requires Drawn(ms, st, adding, buying, c) && Explains(d, adding, buying, c) && AllAnswered(d)
    requires |st.schedule| > 0 && BackedByLog(ms, st, d)
    ensures BuiltFirst(buying, c)
  {
    StartsAt(ms, st, adding, buying, c);
    ListedCountsAreRight(ms, adding, buying, c, st.items);
    forall j, k | 0 <= j < k < |buying| && buying[j].item == buying[k].item && buying[k].time <= c
      ensures buying[j].time <= c
    {
      var n :| 0 <= n < |st.items| && st.items[n].itemId == buying[k].item;
      OrdinalsDiffer(buying, j, k);
      DatedAsCounted(d, buying, c, st.items[n], j);
      DatedAsCounted(d, buying, c, st.items[n], k);
    }
  }

  lemma DatedAsCounted(d: Dicts, buying: seq<Buying>, c: int, x: ItemStatus, j: nat)
    requires InOrdinalOrder(buying) && BuysExplained(d, buying, c) && AllAnswered(d) && CopiesAgree(d, c, x)
    requires x.countBought == Bought(buying, x.itemId) && j < |buying| && buying[j].item == x.itemId
    ensures buying[j].time <= c <==> buying[j].ordinal <= x.countBuilt
  {
    assert buying[j] in buying;
    CopyOfRow(buying, buying[j]);
    RowIsLogged(d, buying, c, x.itemId, buying[j].ordinal);
    assert CopyAgrees(d, c, x, buying[j].ordinal);
  }

  lemma ComputedIsShown(ms: Masters, st: GameStatus, d: Dicts, adding: seq<Adding>, buying: seq<Buying>, c: int)
    requires Drawn(ms, st, adding, buying, c) && BuiltFirst(buying, c) && Explains(d, adding, buying, c)
      && AllAnswered(d)
    ensures |st.schedule| > 0
    ensures SolventShown(LoggedWindow(ms, st, d)) && Matches(st, LoggedWindow(ms, st, d))
      <==> 0 <= Balance(ms, adding, buying, c)
  {
    ComputedReadsTrue(ms, st, d, adding, buying, c);
    TrueReadingIsWindow(ms, st, adding, buying, c);
    var v, w := WindowOf(ms, adding, buying, c), LoggedWindow(ms, st, d);
    hide BackedByLog, Matches, Alike, Explains, AllAnswered, IsStatusOf, InOrdinalOrder, BuiltFirst;
    ComputedMatches(ms, st, adding, buying, c);
    SolventWindow(ms, adding, buying, c);
    JudgedAlike(st, v, w);
  }

  /**
   With every request answered, the slow validator accepts a status computed from the tables the log explains exactly
   if the rows dated by its time come first, item by item, and the balance is not negative.
   */
  lemma ComputedStatusIsAccepted(ms: Masters, st: GameStatus, d: Dicts, adding: seq<Adding>, buying: seq<Buying>,
                                 c: int)
    requires Drawn(ms, st, adding, buying, c) && Explains(d, adding, buying, c) && AllAnswered(d)
    ensures |st.schedule| > 0
    ensures StatusAccepts(ms, st, d) <==> BuiltFirst(buying, c) && 0 <= Balance(ms, adding, buying, c)
  {
    StartsAt(ms, st, adding, buying, c);
    if BuiltFirst(buying, c) {
      ComputedIsBacked(ms, st, d, adding, buying, c);
      ComputedIsShown(ms, st, d, adding, buying, c);
    } else if BackedByLog(ms, st, d) {
      BackedMeansBuiltFirst(ms, st, d, adding, buying, c);
    }
  }

  lemma SolventWindow(ms: Masters, adding: seq<Adding>, buying: seq<Buying>, c: int)
    requires UniqueTimes(adding) && NonNegativeIsu(adding)
    ensures SolventShown(WindowOf(ms, adding, buying, c)) <==> 0 <= Balance(ms, adding, buying, c)
  {
    var v := WindowOf(ms, adding, buying, c);
    WindowGrows(ms, adding, buying, c);
    ScheduleIsExact(v, Horizon(v));
    var ps := ScheduleTo(v, Horizon(v));
    forall k | 0 <= k < |ps| ensures v.base <= ps[k].milliIsu {
      BalanceNowGrows(v, v.start, ps[k].time);
    }
  }

  lemma ComputedMatches(ms: Masters, st: GameStatus, adding: seq<Adding>, buying: seq<Buying>, c: int)
    requires TablesOk(ms, adding, buying) && IsStatusOf(st, ms, adding, buying, c)
    ensures Matches(st, WindowOf(ms, adding, buying, c))
  {
    var v := WindowOf(ms, adding, buying, c);
    ListedCountsAreRight(ms, adding, buying, c, st.items);
    ListedCountsAre(ms, st.items, buying, c);
    ListedTimesAre(st.onSale, OnSaleMap(v, Needs(ms, BoughtMap(ms, buying)), Horizon(v)));
  }
}
