/**
 The two balances of the fast validator are reached: for a status that fits the log there are rooms the log allows
 whose balance is the lower one, and rooms whose balance is the upper one.
 */
module Bounds {
  import opened Answered
  import opened AskedFor
  import opened BenchCheck
  import opened BenchLog
  import opened Bracketing
  import opened Common
  import opened EventJump
  import opened Exponents
  import opened FastIsSlow
  import opened Format
  import opened Ledger
  import opened Rows
  import opened Soundness
  import opened Status
  import opened StatusCheck
  import opened StatusReading
  import opened StatusTruth
  import opened Sums
  import opened TableReading
  import opened Windows

  // ---- Purchases ----------------------------------------------------------------------------------------------------

  function ItemOf(items: seq<ItemStatus>, id: int): Option<ItemStatus>
  {
    if |items| == 0 then None
    else if items[|items| - 1].itemId == id then Some(items[|items| - 1]) else ItemOf(items[..|items| - 1], id)
  }

  lemma {:induction false} ItemOfFinds(items: seq<ItemStatus>, x: ItemStatus)
    requires UniqueIds(items) && x in items
    ensures ItemOf(items, x.itemId) == Some(x)
  {
    var n := |items| - 1;
    if items[n].itemId == x.itemId {
      var k :| 0 <= k < |items| && items[k] == x;
    } else {
      ItemOfFinds(items[..n], x);
    }
  }

  /** Built copies timed by f, coming ones by the building lists. */
  function TimesRead(items: seq<ItemStatus>, f: (int, nat) -> int): (int, nat) -> int {
    (item: int, k: nat) =>
      match ItemOf(items, item)
      case None => 0
      case Some(x) => if k <= x.countBuilt then f(item, k) else WalkTime(x, k)
  }

  lemma TimeReadIs(items: seq<ItemStatus>, f: (int, nat) -> int, x: ItemStatus, k: nat)
    requires UniqueIds(items) && x in items
    ensures TimesRead(items, f)(x.itemId, k) == if k <= x.countBuilt then f(x.itemId, k) else WalkTime(x, k)
  {
    ItemOfFinds(items, x);
  }

  lemma {:induction false} WalkedCopies(x: ItemStatus, k: nat, g: (int, nat) -> int)
    requires forall j: nat :: x.countBuilt < j <= k ==> g(x.itemId, j) == WalkTime(x, j)
    ensures WalkRows(x, k) == Copies(x.itemId, x.countBuilt, k, g)
    decreases k
  {
    if x.countBuilt < k {
      WalkedCopies(x, k - 1, g);
    }
  }

  lemma ReadParts(items: seq<ItemStatus>, f: (int, nat) -> int)
    requires UniqueIds(items)
    ensures Flatten(items, BuiltPart(TimesRead(items, f))) == Flatten(items, BuiltPart(f))
    ensures Flatten(items, FuturePart(TimesRead(items, f))) == Flatten(items, WalkPart())
  {
    var g := TimesRead(items, f);
    forall x | x in items ensures BuiltPart(g)(x) == BuiltPart(f)(x) && FuturePart(g)(x) == WalkPart()(x) {
      ItemOfFinds(items, x);
      SameCopies(x.itemId, 0, x.countBuilt, g, f);
      WalkedCopies(x, x.countBought, g);
    }
    FlattenSame(items, BuiltPart(g), BuiltPart(f));
    FlattenSame(items, FuturePart(g), WalkPart());
  }

  /** f gives every built copy a time by c that the log allows. */
  ghost predicate TimesBuilt(d: Dicts, c: int, items: seq<ItemStatus>, f: (int, nat) -> int)
  {
    forall x, k: nat :: x in items && 1 <= k <= x.countBuilt ==>
      f(x.itemId, k) <= c && RowExplained(d, Buying(x.itemId, k, f(x.itemId, k)))
  }

  /** What a fitting status's items have in common with any table. */
  ghost predicate ItemsFit(d: Dicts, c: int, items: seq<ItemStatus>)
  {
    forall x :: x in items ==>
      && AllRequested(d, x) && ItemFits(d, c, x) && x.countBuilt <= x.countBought
      && (forall p :: 0 <= p < |x.building| ==> c < x.building[p].time <= c + 1000)
      && (forall p, q :: 0 <= p <= q < |x.building| ==> x.building[p].time <= x.building[q].time)
  }

  lemma TimedCopy(d: Dicts, c: int, items: seq<ItemStatus>, f: (int, nat) -> int, x: ItemStatus, k: nat)
    requires UniqueIds(items) && ItemsFit(d, c, items) && TimesBuilt(d, c, items, f)
    requires x in items && 1 <= k <= x.countBought
    ensures var t := TimesRead(items, f)(x.itemId, k);
      t <= c + 1000 && (t <= c <==> k <= x.countBuilt) && RowExplained(d, Buying(x.itemId, k, t))
  {
    TimeReadIs(items, f, x, k);
    assert Requested(d, x, k);
    if x.countBuilt < k {
      assert ComingFits(d, c, x, k);
    }
  }

  lemma ReadInTurn(d: Dicts, c: int, items: seq<ItemStatus>, f: (int, nat) -> int, x: ItemStatus, j: nat, k: nat)
    requires UniqueIds(items) && ItemsFit(d, c, items)
    requires x in items && x.countBuilt < j <= k <= x.countBought
    ensures TimesRead(items, f)(x.itemId, j) <= TimesRead(items, f)(x.itemId, k)
  {
    TimeReadIs(items, f, x, j);
    TimeReadIs(items, f, x, k);
    WalkIdxGrows(x.building, x.countBuilt, j, k);
    assert ComingFits(d, c, x, j) && ComingFits(d, c, x, k);
  }

  /** The purchases so read. */
  function TimedBuying(items: seq<ItemStatus>, f: (int, nat) -> int): seq<Buying>
  {
    Flatten(items, AllPart(TimesRead(items, f)))
  }

  lemma ReadRowsAreTimely(d: Dicts, c: int, items: seq<ItemStatus>, f: (int, nat) -> int)
    requires UniqueIds(items) && ItemsFit(d, c, items) && TimesBuilt(d, c, items, f)
    requires InOrdinalOrder(TimedBuying(items, f))
    ensures Timely(TimedBuying(items, f), c) && forall b :: b in TimedBuying(items, f) ==> RowExplained(d, b)
  {
    var buying, g := TimedBuying(items, f), TimesRead(items, f);
    forall b | b in buying ensures b.time <= c + 1000 && RowExplained(d, b) {
      var x := LoggedRowHolds(items, g, b);
      TimedCopy(d, c, items, f, x, b.ordinal);
    }
    forall j, k | 0 <= j < k < |buying| && buying[j].item == buying[k].item && c < buying[j].time
      ensures buying[j].time <= buying[k].time
    {
      assert buying[j] in buying && buying[k] in buying;
      var x := LoggedRowHolds(items, g, buying[j]);
      var y := LoggedRowHolds(items, g, buying[k]);
      OrdinalsDiffer(buying, j, k);
      TimedCopy(d, c, items, f, x, buying[j].ordinal);
      ReadInTurn(d, c, items, f, x, buying[j].ordinal, buying[k].ordinal);
    }
  }

  // ---- Adds ---------------------------------------------------------------------------------------------------------

  /** A dictionary as rows. */
  ghost function RowsOf(m: map<int, int>): seq<Adding>
  {
    var ks := AnyOrder(m.Keys);
    seq(|ks|, k requires 0 <= k < |ks| => Adding(ks[k], GetOr(m, ks[k], 0)))
  }

  /** The isu m gives for times up to c, then the adds the status announces. */
  ghost function AllowedAdding(st: GameStatus, m: map<int, int>, c: int): seq<Adding>
  {
    RowsUpTo(m, AnyOrder(m.Keys), c) + RowsOf(AddsOf(st.adding))
  }

  lemma {:induction false} PastRows(m: map<int, int>, ks: seq<int>, c: int, t: int)
    requires Distinct(ks) && t <= c
    ensures Sum(RowsUpTo(m, ks, c), IsuAt(t)) == if t in ks then GetOr(m, t, 0) else 0
    ensures UniqueTimes(RowsUpTo(m, ks, c))
    ensures forall a :: a in RowsUpTo(m, ks, c) ==> a.time in ks && a.time <= c
  {
    if |ks| > 0 {
      PastRows(m, ks[..|ks| - 1], c, t);
    }
  }

  lemma AnnouncedRows(list: seq<Adding>)
    ensures UniqueTimes(RowsOf(AddsOf(list))) && AddsOf(RowsOf(AddsOf(list))) == AddsOf(list)
    ensures forall a :: a in RowsOf(AddsOf(list)) ==> a in list
  {
    var m := AddsOf(list);
    var rows, ks := RowsOf(m), AnyOrder(m.Keys);
    forall k | 0 <= k < |rows| ensures rows[k].time in m && m[rows[k].time] == rows[k].isu && rows[k] in list {
      assert ks[k] in m.Keys;
      AddsOfHolds(list, ks[k]);
    }
    assert UniqueTimes(rows);
    forall t
      ensures t in AddsOf(rows) <==> t in m
      ensures t in m ==> t in AddsOf(rows) && AddsOf(rows)[t] == m[t]
    {
      AddsOfHolds(rows, t);
      if t in m {
        assert t in ks;
        var k :| 0 <= k < |ks| && ks[k] == t;
        assert rows[k].time == t;
        AddsOfHolds(rows, t);
      }
    }
    SameTable(AddsOf(rows), m);
  }

  lemma {:induction false} NoneAt(rows: seq<Adding>, t: int)
    requires forall a :: a in rows ==> a.time != t
    ensures Sum(rows, IsuAt(t)) == 0
  {
    forall k | 0 <= k < |rows| ensures IsuAt(t)(rows[k]) == 0 {
      assert rows[k] in rows;
    }
    Zeros(rows, IsuAt(t));
  }

  lemma AllowedIsuAt(st: GameStatus, m: map<int, int>, c: int, t: int)
    requires t <= c && forall k :: 0 <= k < |st.adding| ==> c < st.adding[k].time
    ensures Sum(AllowedAdding(st, m, c), IsuAt(t)) == GetOr(m, t, 0)
  {
    var past, rows := RowsUpTo(m, AnyOrder(m.Keys), c), RowsOf(AddsOf(st.adding));
    assert t in AnyOrder(m.Keys) <==> t in m.Keys;
    PastRows(m, AnyOrder(m.Keys), c, t);
    AnnouncedRows(st.adding);
    forall a | a in rows ensures a.time != t {
      assert a in st.adding;
    }
    NoneAt(rows, t);
    SumConcat(past, rows, IsuAt(t));
  }

  /** Such rows make a table the log allows, whose isu by c is m's and whose later adds are the status's. */
  lemma AllowedAddsAreRows(st: GameStatus, d: Dicts, m: map<int, int>, c: int)
    requires forall k :: 0 <= k < |st.adding| ==> c < st.adding[k].time && AddPossible(d, st.adding[k])
    requires forall t :: t <= c ==>
      GetOr(d.adds, t, 0) <= GetOr(m, t, 0) <= GetOr(d.adds, t, 0) + GetOr(d.addsOpen, t, 0)
    ensures UniqueTimes(AllowedAdding(st, m, c)) && AddsExplained(d, AllowedAdding(st, m, c), c)
    ensures FutureAdds(AllowedAdding(st, m, c), c) == AddsOf(st.adding)
    ensures Sum(AllowedAdding(st, m, c), IsuBy(c)) == DictSum(m, c)
  {
    var past, rows, adding := RowsUpTo(m, AnyOrder(m.Keys), c), RowsOf(AddsOf(st.adding)), AllowedAdding(st, m, c);
    PastRows(m, AnyOrder(m.Keys), c, c);
    AnnouncedRows(st.adding);
    forall a | a in rows ensures c < a.time && AddPossible(d, a) {
      assert a in st.adding;
    }
    forall k | 0 <= k < |rows| ensures c < rows[k].time {
      assert rows[k] in rows;
    }
    forall k | 0 <= k < |past| ensures past[k].time <= c {
      assert past[k] in past;
    }
    FutureOfRows(past, rows, c);
    RowsUpToTotal(m, AnyOrder(m.Keys), c);
    forall t | t <= c
      ensures GetOr(d.adds, t, 0) <= Sum(adding, IsuAt(t)) <= GetOr(d.adds, t, 0) + GetOr(d.addsOpen, t, 0)
    {
      AllowedIsuAt(st, m, c, t);
    }
    forall a | a in adding && c < a.time ensures AddPossible(d, a) {
      assert a in past || a in rows;
    }
  }

  // ---- Both balances are reached ------------------------------------------------------------------------------------

  /** Every confirmed purchase names an item of the game. */
  ghost predicate KnownBuys(ms: Masters, d: Dicts) { forall q :: q in d.buys ==> q.item in ms }

  /** A well-formed status whose items fit the log and are shown as a window from its time shows them. */
  ghost predicate FitsAndShows(ms: Masters, st: GameStatus, d: Dicts)
  {
    && FormatOk(ms, st) && FitsLog(st, d)
    && forall k :: 0 <= k < |st.items| ==> Viewed(LowWindow(ms, st, d), st.items[k])
  }

  lemma FittingItems(ms: Masters, st: GameStatus, d: Dicts)
    requires FitsAndShows(ms, st, d)
    ensures ItemsFit(d, st.schedule[0].time, st.items)
  {
    var w := LowWindow(ms, st, d);
    forall x | x in st.items
      ensures (forall p :: 0 <= p < |x.building| ==> w.start < x.building[p].time <= w.start + 1000)
        && (forall p, q :: 0 <= p <= q < |x.building| ==> x.building[p].time <= x.building[q].time)
    {
      var k :| 0 <= k < |st.items| && st.items[k] == x;
      ViewedTimesRise(w, x);
      ViewedCountsUp(w, x);
    }
  }

  lemma NothingElseConfirmed(ms: Masters, st: GameStatus, d: Dicts, f: (int, nat) -> int)
    requires FitsAndShows(ms, st, d) && KnownBuys(ms, d)
    requires CountsCopies(TimedBuying(st.items, f), st.items)
    ensures forall q :: q in d.buys && q.count == Bought(TimedBuying(st.items, f), q.item) ==>
      st.schedule[0].time < d.buys[q]
  {
    AllItemsListed(ms, st.items);
    forall q | q in d.buys && q.count == Bought(TimedBuying(st.items, f), q.item)
      ensures st.schedule[0].time < d.buys[q]
    {
      var k :| 0 <= k < |st.items| && st.items[k].itemId == q.item;
      assert ItemFits(d, st.schedule[0].time, st.items[k]);
      assert q == Copy(st.items[k].itemId, st.items[k].countBought);
    }
  }

  /** The purchases read with allowed times make a table the log explains. */
  lemma TimedBuyingIsExplained(ms: Masters, st: GameStatus, d: Dicts, f: (int, nat) -> int)
    requires FitsAndShows(ms, st, d) && KnownBuys(ms, d) && TimesBuilt(d, st.schedule[0].time, st.items, f)
    ensures var c, buying := st.schedule[0].time, TimedBuying(st.items, f);
      KnownItems(ms, buying) && InOrdinalOrder(buying) && BuysExplained(d, buying, c) && Timely(buying, c)
  {
    hide FitsLog, Viewed, BuysExplained, TimesBuilt, KnownItems, InOrdinalOrder, Timely, CountsCopies, ItemsFit;
    AllItemsListed(ms, st.items);
    LoggedTableIsSound(ms, st.items, TimesRead(st.items, f));
    FittingItems(ms, st, d);
    ReadRowsAreTimely(d, st.schedule[0].time, st.items, f);
    NothingElseConfirmed(ms, st, d, f);
    ExplainedBuys(d, TimedBuying(st.items, f), st.schedule[0].time);
  }

  lemma ExplainedBuys(d: Dicts, buying: seq<Buying>, c: int)
    requires forall b :: b in buying ==> RowExplained(d, b)
    requires forall q :: q in d.buys && q.count == Bought(buying, q.item) ==> c < d.buys[q]
    ensures BuysExplained(d, buying, c)
  {
  }

  /** The tables read with the times f and the isu of m show the window so read. */
  lemma ReadTablesShow(ms: Masters, st: GameStatus, d: Dicts, f: (int, nat) -> int, m: map<int, int>)
    requires FitsAndShows(ms, st, d) && TimesBuilt(d, st.schedule[0].time, st.items, f)
    requires var c := st.schedule[0].time;
      && FutureAdds(AllowedAdding(st, m, c), c) == AddsOf(st.adding)
      && Sum(AllowedAdding(st, m, c), IsuBy(c)) == DictSum(m, c)
    ensures var c := st.schedule[0].time;
      var v := WindowOf(ms, AllowedAdding(st, m, c), TimedBuying(st.items, f), c);
      var w := StatusWindow(ms, st, DictSum(m, c), Flatten(st.items, BuiltPart(f)), Coming(st));
      Alike(v, w) && v.base == w.base
  {
    var c, g := st.schedule[0].time, TimesRead(st.items, f);
    AllItemsListed(ms, st.items);
    FittingItems(ms, st, d);
    ReadParts(st.items, f);
    PartsOwnTheirRows(st.items, g);
    FlattenHolds(st.items, AllPart(g));
    forall x, k: nat | x in st.items && 1 <= k <= x.countBought ensures g(x.itemId, k) <= c <==> k <= x.countBuilt {
      TimedCopy(d, c, st.items, f, x, k);
    }
    hide FitsLog, Viewed, TimesBuilt, Alike, TimesRead;
    ReadingIsWindow(ms, st, AllowedAdding(st, m, c), TimedBuying(st.items, f), g, c);
  }

  lemma BuiltTimesAreAllowed(d: Dicts, c: int, x: ItemStatus, k: nat)
    requires Requested(d, x, k) && HighTime(d)(x.itemId, k) <= c && OpenIsOrdered(d) && 1 <= k
    ensures LowTime(d, c)(x.itemId, k) <= c
    ensures RowExplained(d, Buying(x.itemId, k, LowTime(d, c)(x.itemId, k)))
    ensures RowExplained(d, Buying(x.itemId, k, HighTime(d)(x.itemId, k)))
  {
  }

  lemma BothTimesAreAllowed(ms: Masters, st: GameStatus, d: Dicts)
    requires FitsAndShows(ms, st, d) && OpenIsOrdered(d)
    ensures TimesBuilt(d, st.schedule[0].time, st.items, LowTime(d, st.schedule[0].time))
    ensures TimesBuilt(d, st.schedule[0].time, st.items, HighTime(d))
  {
    var c := st.schedule[0].time;
    hide LowTime, HighTime, RowExplained, Requested, Viewed, OpenIsOrdered, FormatOk, FitTo, NothingMissed;
    forall x, k: nat | x in st.items && 1 <= k <= x.countBuilt
      ensures LowTime(d, c)(x.itemId, k) <= c && RowExplained(d, Buying(x.itemId, k, LowTime(d, c)(x.itemId, k)))
      ensures HighTime(d)(x.itemId, k) <= c && RowExplained(d, Buying(x.itemId, k, HighTime(d)(x.itemId, k)))
    {
      BuiltCopyIsAsked(ms, st, d, x, k);
      BuiltTimesAreAllowed(d, c, x, k);
    }
  }

  lemma BuiltCopyIsAsked(ms: Masters, st: GameStatus, d: Dicts, x: ItemStatus, k: nat)
    requires FitsAndShows(ms, st, d) && x in st.items && 1 <= k <= x.countBuilt
    ensures Requested(d, x, k) && HighTime(d)(x.itemId, k) <= st.schedule[0].time
  {
    var j :| 0 <= j < |st.items| && st.items[j] == x;
    assert AllRequested(d, st.items[j]) && ItemFits(d, st.schedule[0].time, st.items[j]);
  }

  /** A room the log allows, its items those the status shows. */
  ghost predicate Allows(ms: Masters, st: GameStatus, d: Dicts, adding: seq<Adding>, buying: seq<Buying>)
    requires |st.schedule| > 0
  {
    && UniqueTimes(adding) && KnownItems(ms, buying) && InOrdinalOrder(buying)
    && Timely(buying, st.schedule[0].time) && Explains(d, adding, buying, st.schedule[0].time)
    && forall k :: 0 <= k < |st.items| ==> ItemIsTrue(ms, buying, st.schedule[0].time, st.items[k])
  }

  lemma AlikeShowsTrue(ms: Masters, st: GameStatus, adding: seq<Adding>, buying: seq<Buying>, w: Window, k: nat)
    requires |st.schedule| > 0 && k < |st.items| && st.items[k].itemId in ms && Viewed(w, st.items[k])
    requires Alike(WindowOf(ms, adding, buying, st.schedule[0].time), w)
    requires st.items[k].countBought == Bought(buying, st.items[k].itemId)
    ensures ItemIsTrue(ms, buying, st.schedule[0].time, st.items[k])
  {
    var v, x := WindowOf(ms, adding, buying, st.schedule[0].time), st.items[k];
    hide Alike, ItemIsTrue, ItemView, Bought;
    ViewsAgree(v, w, x.itemId, x.countBought);
    ViewIsTrue(ms, adding, buying, st.schedule[0].time, x);
  }

  lemma ReadRoomIsAllowed(ms: Masters, st: GameStatus, d: Dicts, f: (int, nat) -> int, adding: seq<Adding>)
    requires FitsAndShows(ms, st, d) && KnownBuys(ms, d) && TimesBuilt(d, st.schedule[0].time, st.items, f)
    requires var c, buying := st.schedule[0].time, TimedBuying(st.items, f);
      && UniqueTimes(adding) && AddsExplained(d, adding, c)
      && Alike(WindowOf(ms, adding, buying, c), LowWindow(ms, st, d))
    ensures Allows(ms, st, d, adding, TimedBuying(st.items, f))
  {
    var c, buying := st.schedule[0].time, TimedBuying(st.items, f);
    hide FitsLog, Alike, Viewed, BuysExplained, AddsExplained, Timely, InOrdinalOrder, KnownItems, UniqueTimes,
      TimesBuilt, TimedBuying, ItemIsTrue, LowWindow, CountsCopies, Bought;
    TimedBuyingIsExplained(ms, st, d, f);
    TimedCounts(ms, st.items, f);
    forall k | 0 <= k < |st.items| ensures ItemIsTrue(ms, buying, c, st.items[k]) {
      AlikeShowsTrue(ms, st, adding, buying, LowWindow(ms, st, d), k);
    }
  }

  lemma TimedCounts(ms: Masters, items: seq<ItemStatus>, f: (int, nat) -> int)
    requires ItemsOk(ms, items)
    ensures forall k :: 0 <= k < |items| ==>
      items[k].itemId in ms && items[k].countBought == Bought(TimedBuying(items, f), items[k].itemId)
  {
    AllItemsListed(ms, items);
    LoggedTableIsSound(ms, items, TimesRead(items, f));
  }

  /**
   The lower balance is reached: without the unanswered adds, and with the unanswered purchases as late as they can
   have been, the log allows a room whose window is the lower one.
   */
  lemma LowIsReached(ms: Masters, st: GameStatus, d: Dicts) returns (adding: seq<Adding>, buying: seq<Buying>)
    requires FitsAndShows(ms, st, d) && KnownBuys(ms, d) && OpenIsOrdered(d)
    ensures var c := st.schedule[0].time;
      && Allows(ms, st, d, adding, buying)
      && Alike(WindowOf(ms, adding, buying, c), LowWindow(ms, st, d))
      && Balance(ms, adding, buying, c) == LowWindow(ms, st, d).base
  {
    var c, f := st.schedule[0].time, LowTime(d, st.schedule[0].time);
    adding, buying := AllowedAdding(st, d.adds, c), TimedBuying(st.items, f);
    hide Viewed, Alike, BuysExplained, AddsExplained, Timely, InOrdinalOrder, KnownItems, UniqueTimes, TimesBuilt,
      AllowedAdding, TimedBuying, Allows, LowWindow;
    assert forall k :: 0 <= k < |st.adding| ==> c < st.adding[k].time && AddPossible(d, st.adding[k]);
    BothTimesAreAllowed(ms, st, d);
    AllowedAddsAreRows(st, d, d.adds, c);
    TimedBuyingIsExplained(ms, st, d, f);
    ReadTablesShow(ms, st, d, f, d.adds);
    LowWindowIs(ms, st, d);
    ReadRoomIsAllowed(ms, st, d, f, adding);
  }

  lemma LowWindowIs(ms: Masters, st: GameStatus, d: Dicts)
    requires |st.schedule| > 0
    ensures var c := st.schedule[0].time;
      LowWindow(ms, st, d)
        == StatusWindow(ms, st, DictSum(d.adds, c), Flatten(st.items, BuiltPart(LowTime(d, c))), Coming(st))
  {
  }

  /** Confirmed and unanswered isu together, by time. */
  function BothAdds(d: Dicts): map<int, int>
  {
    map t | t in d.adds.Keys + d.addsOpen.Keys :: GetOr(d.adds, t, 0) + GetOr(d.addsOpen, t, 0)
  }

  lemma BothAt(d: Dicts, t: int)
    ensures GetOr(BothAdds(d), t, 0) == GetOr(d.adds, t, 0) + GetOr(d.addsOpen, t, 0)
    ensures t in BothAdds(d) <==> t in d.adds || t in d.addsOpen
  {
  }

  lemma BothByTime(d: Dicts, c: int, t: int)
    ensures ValueBy(BothAdds(d), c)(t) == ValueBy(d.adds, c)(t) + 1 * ValueBy(d.addsOpen, c)(t)
  {
    BothAt(d, t);
  }

  lemma BothAddsTotal(d: Dicts, c: int)
    ensures DictSum(BothAdds(d), c) == DictSum(d.adds, c) + DictSum(d.addsOpen, c)
  {
    var m, ks := BothAdds(d), AllKeys(BothAdds(d), d.adds, d.addsOpen);
    DictSumOver(m, c, ks);
    DictSumOver(d.adds, c, ks);
    DictSumOver(d.addsOpen, c, ks);
    hide BothAdds, ValueBy;
    forall k | 0 <= k < |ks|
      ensures ValueBy(m, c)(ks[k]) == ValueBy(d.adds, c)(ks[k]) + 1 * ValueBy(d.addsOpen, c)(ks[k])
    {
      BothByTime(d, c, ks[k]);
    }
    SumLinear(ks, ValueBy(m, c), ValueBy(d.adds, c), 1, ValueBy(d.addsOpen, c));
  }

  lemma HighIsLowRaised(ms: Masters, st: GameStatus, d: Dicts)
    requires |st.schedule| > 0
    ensures var c := st.schedule[0].time;
      StatusWindow(ms, st, DictSum(BothAdds(d), c), HighBuilt(st, d), Coming(st)) == HighWindow(ms, st, d)
  {
    BothAddsTotal(d, st.schedule[0].time);
    TimesDoNotMatter(ms, st.items, HighTime(d), LowTime(d, st.schedule[0].time));
  }

  /**
   So is the upper one: with every unanswered add, and with the unanswered purchases as early as they can have been.
   */
  lemma HighIsReached(ms: Masters, st: GameStatus, d: Dicts) returns (adding: seq<Adding>, buying: seq<Buying>)
    requires FitsAndShows(ms, st, d) && KnownBuys(ms, d) && OpenIsOrdered(d)
    ensures var c := st.schedule[0].time;
      && Allows(ms, st, d, adding, buying)
      && Alike(WindowOf(ms, adding, buying, c), HighWindow(ms, st, d))
      && Balance(ms, adding, buying, c) == HighBase(ms, st, d)
  {
    var c, f, m := st.schedule[0].time, HighTime(d), BothAdds(d);
    adding, buying := AllowedAdding(st, m, c), TimedBuying(st.items, f);
    forall t ensures GetOr(m, t, 0) == GetOr(d.adds, t, 0) + GetOr(d.addsOpen, t, 0) {
      BothAt(d, t);
    }
    hide Viewed, Alike, BuysExplained, AddsExplained, Timely, InOrdinalOrder, KnownItems, UniqueTimes, TimesBuilt,
      AllowedAdding, TimedBuying, BothAdds, Allows, LowWindow;
    assert forall k :: 0 <= k < |st.adding| ==> c < st.adding[k].time && AddPossible(d, st.adding[k]);
    BothTimesAreAllowed(ms, st, d);
    AllowedAddsAreRows(st, d, m, c);
    TimedBuyingIsExplained(ms, st, d, f);
    ReadTablesShow(ms, st, d, f, m);
    HighIsLowRaised(ms, st, d);
    AlikeRaised(WindowOf(ms, adding, buying, c), HighWindow(ms, st, d), LowWindow(ms, st, d).base);
    ReadRoomIsAllowed(ms, st, d, f, adding);
  }

  /** The schedule of a window alike to a room's, of the same opening, has the room's balances and powers. */
  lemma AlikeScheduleIsTrue(ms: Masters, adding: seq<Adding>, buying: seq<Buying>, c: int, w: Window, k: nat)
    requires UniqueTimes(adding) && Alike(WindowOf(ms, adding, buying, c), w)
    requires w.base == Balance(ms, adding, buying, c)
    requires k < |ScheduleTo(w, Horizon(w))|
    ensures var p := ScheduleTo(w, Horizon(w))[k];
            p.milliIsu == Balance(ms, adding, buying, p.time) && p.totalPower == TotalPower(ms, buying, p.time)
  {
    var v := WindowOf(ms, adding, buying, c);
    WindowsStartAlike(v, w);
    SameSchedule(v, w, Horizon(v));
    hide Alike, Balance, ScheduleTo, BalanceNow, PowerNow;
    ScheduleIsExact(v, Horizon(v));
    SimulationIsLedger(ms, adding, buying, c, ScheduleTo(v, Horizon(v))[k].time);
  }

  /** One entry against a room at the lower and one at the upper balance. */
  predicate EntryLiesBetween(ms: Masters, e: ScheduleEntry, as1: seq<Adding>, bs1: seq<Buying>, as2: seq<Adding>,
                             bs2: seq<Buying>)
  {
    var low := Balance(ms, as1, bs1, e.time);
    && e.totalPower == Big2Exp(TotalPower(ms, bs1, e.time)) == Big2Exp(TotalPower(ms, bs2, e.time))
    && Big2Exp(if low < 0 then 0 else low).LessEq(e.milliIsu)
    && e.milliIsu.LessEq(Big2Exp(Balance(ms, as2, bs2, e.time)))
  }

  /**
   Completeness.  Of a well-formed status that passes the fast validator every balance lies, as rounded, between those
   of two rooms the log allows, which have the items and the powers it shows.
   */
  lemma PassingLiesBetweenRooms(ms: Masters, st: GameStatus, d: Dicts)
    returns (as1: seq<Adding>, bs1: seq<Buying>, as2: seq<Adding>, bs2: seq<Buying>)
    requires FormatOk(ms, st) && BenchVerdict(ms, st, d) && KnownBuys(ms, d) && OpenIsOrdered(d)
    ensures Allows(ms, st, d, as1, bs1) && Allows(ms, st, d, as2, bs2)
    ensures forall k :: 0 <= k < |st.schedule| ==> EntryLiesBetween(ms, st.schedule[k], as1, bs1, as2, bs2)
  {
    var low, c := LowWindow(ms, st, d), st.schedule[0].time;
    hide FormatOk, FitsLog, Viewed, SearchedBetween, Allows, Alike, EntryLiesBetween, LowWindow, HighBase, Between,
      KnownBuys, OpenIsOrdered, Balance;
    as1, bs1 := LowIsReached(ms, st, d);
    as2, bs2 := HighIsReached(ms, st, d);
    AllowedIsUnique(ms, st, d, as1, bs1);
    AllowedIsUnique(ms, st, d, as2, bs2);
    forall k | 0 <= k < |st.schedule| ensures EntryLiesBetween(ms, st.schedule[k], as1, bs1, as2, bs2) {
      EntryOfRooms(ms, st.schedule, c, as1, bs1, as2, bs2, low, HighBase(ms, st, d), k);
    }
  }

  lemma EntryOfRooms(ms: Masters, s: seq<ScheduleEntry>, c: int, as1: seq<Adding>, bs1: seq<Buying>, as2: seq<Adding>,
                     bs2: seq<Buying>, low: Window, base2: int, k: nat)
    requires var high := Raised(low, base2);
      && k < |s| && ScheduleBetween(s, ScheduleTo(low, Horizon(low)), ScheduleTo(high, Horizon(high)))
      && UniqueTimes(as1) && Alike(WindowOf(ms, as1, bs1, c), low) && low.base == Balance(ms, as1, bs1, c)
      && UniqueTimes(as2) && Alike(WindowOf(ms, as2, bs2, c), high) && base2 == Balance(ms, as2, bs2, c)
    ensures EntryLiesBetween(ms, s[k], as1, bs1, as2, bs2)
  {
    var high := Raised(low, base2);
    hide Alike, EntryLiesBetween, Between, Balance, ScheduleTo, BalanceNow, PowerNow, TotalPower;
    AlikeScheduleIsTrue(ms, as1, bs1, c, low, k);
    AlikeScheduleIsTrue(ms, as2, bs2, c, high, k);
    RaisedIsAlike(low, base2);
    AlikeWindows(low, high, Horizon(low));
    BetweenMeans(ms, s[k], ScheduleTo(low, Horizon(low))[k], ScheduleTo(high, Horizon(high))[k], as1, bs1, as2, bs2);
  }

  lemma AllowedIsUnique(ms: Masters, st: GameStatus, d: Dicts, adding: seq<Adding>, buying: seq<Buying>)
    requires |st.schedule| > 0 && Allows(ms, st, d, adding, buying)
    ensures UniqueTimes(adding)
  {
  }

  lemma BetweenMeans(ms: Masters, e: ScheduleEntry, low: Point, high: Point, as1: seq<Adding>, bs1: seq<Buying>,
                     as2: seq<Adding>, bs2: seq<Buying>)
    requires Between(e, low, high) && low.time == high.time && low.totalPower == high.totalPower
    requires low.milliIsu == Balance(ms, as1, bs1, low.time) && low.totalPower == TotalPower(ms, bs1, low.time)
    requires high.milliIsu == Balance(ms, as2, bs2, high.time) && high.totalPower == TotalPower(ms, bs2, high.time)
    ensures EntryLiesBetween(ms, e, as1, bs1, as2, bs2)
  {
  }
}
