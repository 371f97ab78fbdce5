/** When the fast validator refuses an honest server: the exact conditions for answered runs, and a run for each. */
module Verdicts {
  import opened Answered
  import opened BenchCheck
  import opened BenchLog
  import opened Bracketing
  import opened Common
  import opened EventJump
  import opened Exponents
  import opened FastIsSlow
  import opened HonestGame
  import opened HonestRuns
  import opened Items
  import opened Ledger
  import opened OnSaleSearch
  import opened Rooms
  import opened Rows
  import opened Runs
  import opened Soundness
  import opened Status
  import opened StatusCheck
  import opened StatusReading
  import opened Sums
  import opened Windows

  // ---- With every request answered ----------------------------------------------------------------------------------

  lemma DrawnCounts(ms: Masters, st: GameStatus, adding: seq<Adding>, buying: seq<Buying>, c: int)
    requires Drawn(ms, st, adding, buying, c)
    ensures CountsRight(ms, st.items, buying, c)
    ensures forall k :: 0 <= k < |st.items| ==> st.items[k].countBuilt <= st.items[k].countBought
  {
    ListedCountsAreRight(ms, adding, buying, c, st.items);
    forall k | 0 <= k < |st.items| ensures st.items[k].countBuilt <= st.items[k].countBought {
      BuiltAtMostBought(buying, st.items[k].itemId, c);
    }
  }

  /** What was logged in order is in the table in order. */
  lemma LoggedInOrderIsTimely(ms: Masters, d: Dicts, buying: seq<Buying>, c: int, items: seq<ItemStatus>)
    requires KnownItems(ms, buying) && InOrdinalOrder(buying) && BuysExplained(d, buying, c) && AllAnswered(d)
    requires CountsRight(ms, items, buying, c) && forall x :: x in items ==> BoughtInOrder(d, c, x)
    ensures Timely(buying, c)
  {
    forall j, k | 0 <= j <= k < |buying| && buying[j].item == buying[k].item
      ensures (c < buying[j].time ==> buying[j].time <= buying[k].time) && buying[k].time <= c + 1000
    {
      var n :| 0 <= n < |items| && items[n].itemId == buying[k].item;
      assert items[n] in items && buying[j] in buying && buying[k] in buying;
      RowsInTurn(d, buying, c, items[n], j, k);
    }
    forall b | b in buying ensures b.time <= c + 1000 {
      var k :| 0 <= k < |buying| && buying[k] == b;
    }
  }

  lemma RowsInTurn(d: Dicts, buying: seq<Buying>, c: int, x: ItemStatus, j: nat, k: nat)
    requires InOrdinalOrder(buying) && BuysExplained(d, buying, c) && AllAnswered(d) && BoughtInOrder(d, c, x)
    requires j <= k < |buying| && buying[j].item == buying[k].item == x.itemId
      && x.countBought == Bought(buying, x.itemId)
    ensures (c < buying[j].time ==> buying[j].time <= buying[k].time) && buying[k].time <= c + 1000
  {
    assert buying[j] in buying && buying[k] in buying;
    CopyOfRow(buying, buying[j]);
    CopyOfRow(buying, buying[k]);
    if j < k {
      OrdinalsDiffer(buying, j, k);
    }
    RowIsLogged(d, buying, c, x.itemId, buying[j].ordinal);
    RowIsLogged(d, buying, c, x.itemId, buying[k].ordinal);
    assert InTurn(d, c, x.itemId, buying[j].ordinal, buying[k].ordinal) && InReach(d, c, x.itemId, buying[k].ordinal);
  }

  /** The upper balance is then the true one. */
  lemma UpperIsTrue(ms: Masters, st: GameStatus, d: Dicts, adding: seq<Adding>, buying: seq<Buying>, c: int)
    requires Drawn(ms, st, adding, buying, c) && BuiltFirst(buying, c) && Explains(d, adding, buying, c)
      && AllAnswered(d)
    requires |st.schedule| > 0 && AllConfirmed(d, st.items) && WalksAsLogged(d, st.items)
    ensures Alike(WindowOf(ms, adding, buying, c), HighWindow(ms, st, d))
      && HighBase(ms, st, d) == Balance(ms, adding, buying, c)
  {
    DrawnCounts(ms, st, adding, buying, c);
    WindowsCoincide(ms, st, d);
    ComputedReadsTrue(ms, st, d, adding, buying, c);
    TrueReadingIsWindow(ms, st, adding, buying, c);
  }

  /** A status that fits the log and its lower window was bought in time order, and what it opens with is not owed. */
  lemma FittingIsTimely(ms: Masters, st: GameStatus, d: Dicts, adding: seq<Adding>, buying: seq<Buying>, c: int)
    requires Drawn(ms, st, adding, buying, c) && Explains(d, adding, buying, c) && AllAnswered(d)
    requires |st.schedule| > 0 && FitsLog(st, d) && 0 <= HighBase(ms, st, d)
    requires forall k :: 0 <= k < |st.items| ==> Viewed(LowWindow(ms, st, d), st.items[k])
    ensures Timely(buying, c) && 0 <= Balance(ms, adding, buying, c)
  {
    StartsAt(ms, st, adding, buying, c);
    DrawnCounts(ms, st, adding, buying, c);
    FitStatusIsInOrder(ms, st, d);
    LoggedInOrderIsTimely(ms, d, buying, c, st.items);
    FitStatusAgrees(ms, st, d);
    OrderKeepsBuiltFirst(buying, c, c);
    UpperIsTrue(ms, st, d, adding, buying, c);
  }

  /**
   With every request answered, a status computed from the tables the log explains passes exactly if its balance is
   not negative, its items' purchases are in time order from its time on and within its window, and the search wraps
   for no item it lists as on sale.
   */
  lemma AnsweredVerdict(ms: Masters, st: GameStatus, d: Dicts, adding: seq<Adding>, buying: seq<Buying>, c: int)
    requires Drawn(ms, st, adding, buying, c) && Explains(d, adding, buying, c) && AllAnswered(d)
      && c + 1000 < INT64_BOUND
    ensures |st.schedule| > 0
    ensures BenchVerdict(ms, st, d)
      <==> 0 <= Balance(ms, adding, buying, c) && Timely(buying, c) && NoListedWrap(ms, st, HighWindow(ms, st, d))
  {
    StartsAt(ms, st, adding, buying, c);
    if 0 <= Balance(ms, adding, buying, c) && Timely(buying, c) {
      GenuineVerdict(ms, st, d, adding, buying, c);
    } else if BenchVerdict(ms, st, d) {
      FittingIsTimely(ms, st, d, adding, buying, c);
    }
  }

  // ---- At the end of a run ------------------------------------------------------------------------------------------

  /** st is a status of the room after the run. */
  ghost predicate EndsWith(ms: Masters, hs: seq<Happening>, st: GameStatus)
  {
    var s := RoomAfter(ms, hs);
    IsStatusOf(st, ms, s.adding, s.buying, s.time) && 0 <= s.time && s.time + 1000 < INT64_BOUND
  }

  lemma RunIsDrawn(ms: Masters, hs: seq<Happening>, st: GameStatus, d: Dicts)
    requires FairRun(hs) && EndsWith(ms, hs, st) && DictsOf(LogOf(ms, hs), d)
    ensures var s := RoomAfter(ms, hs);
            Drawn(ms, st, s.adding, s.buying, s.time) && Explains(d, s.adding, s.buying, s.time)
  {
    RoomStaysValid(ms, hs);
    EntriesNonNegative(ms, hs);
    assert hs[..|hs|] == hs;
    LogExplainsEveryState(ms, hs, |hs|, d);
  }

  lemma EndIsDrawn(ms: Masters, hs: seq<Happening>, st: GameStatus, d: Dicts)
    requires FairRun(hs) && EverythingAnswered(hs) && EndsWith(ms, hs, st) && DictsOf(LogOf(ms, hs), d)
    ensures var s := RoomAfter(ms, hs);
            Drawn(ms, st, s.adding, s.buying, s.time) && Explains(d, s.adding, s.buying, s.time) && AllAnswered(d)
  {
    RunIsDrawn(ms, hs, st, d);
    EntriesAnswered(ms, hs);
    NothingOpen(LogOf(ms, hs), d);
  }

  lemma EndVerdict(ms: Masters, hs: seq<Happening>, st: GameStatus, d: Dicts)
    requires FairRun(hs) && EverythingAnswered(hs) && EndsWith(ms, hs, st) && DictsOf(LogOf(ms, hs), d)
    ensures |st.schedule| > 0
    ensures var s := RoomAfter(ms, hs);
            BenchVerdict(ms, st, d) <==>
              0 <= Balance(ms, s.adding, s.buying, s.time) && Timely(s.buying, s.time)
                && NoListedWrap(ms, st, HighWindow(ms, st, d))
  {
    var s := RoomAfter(ms, hs);
    EndIsDrawn(ms, hs, st, d);
    AnsweredVerdict(ms, st, d, s.adding, s.buying, s.time);
  }

  lemma OneMore(ms: Masters, hs: seq<Happening>, h: Happening)
    ensures RoomAfter(ms, hs + [h]) == NextRoom(ms, RoomAfter(ms, hs), h)
    ensures LogOf(ms, hs + [h]) == LogOf(ms, hs) + EntryFor(ms, RoomAfter(ms, hs), h)
  {
    assert (hs + [h])[..|hs|] == hs;
    RoomStep(ms, hs + [h]);
  }

  // ---- A small shop -------------------------------------------------------------------------------------------------

  const NOW := 1500000000000

  /** One item, 1, whose every copy costs p isu and has power 1. */
  function Shop(p: Base): Masters { map[1 := MItem(0, 1, 0, 1, 0, 1, 0, p)] }

  function Asks(q: Request): Happening { Processed(Event(NOW, q), true) }

  lemma ShopPrices(p: Base, k: nat)
    ensures Price(Shop(p), 1, k) == p && Power(Shop(p), 1, k) == 1
  {
    assert Pow(p, 1) == p * Pow(p, 0);
    assert Pow(1, 1) == 1 * Pow(1, 0);
  }

  /** A request the room accepts at NOW. */
  lemma AcceptedNow(ms: Masters, hs: seq<Happening>, s: RoomState, q: Request)
    requires RoomAfter(ms, hs) == s && Accepts(ms, s, NOW, q)
    ensures RoomAfter(ms, hs + [Asks(q)]) == Apply(s, NOW, q)
  {
    OneMore(ms, hs, Asks(q));
  }

  lemma SingleSum<T>(x: T, f: T -> int)
    ensures Sum([x], f) == f(x)
  {
    assert [x][..0] == [];
  }

  lemma OneAddBalance(p: Base, a: Adding, t: int)
    ensures Balance(Shop(p), [a], [], t) == if a.time <= t then 1000 * a.isu else 0
  {
    SingleSum(a, IsuBy(t));
  }

  lemma OneRowBalance(p: Base, a: Adding, dated: int, t: int)
    requires t < dated
    ensures Balance(Shop(p), [a], [Buying(1, 1, dated)], t) == (if a.time <= t then 1000 * a.isu else 0) - 1000 * p
  {
    var b := Buying(1, 1, dated);
    ShopPrices(p, 1);
    SingleSum(a, IsuBy(t));
    SingleSum(b, Cost(Shop(p)));
    SingleSum(b, Gain(Shop(p), t));
    hide Pow, Shop, Price, Power;
    assert Cost(Shop(p))(b) == 1000 * p;
  }

  lemma OneAdded(p: Base, a: Adding)
    requires NOW <= a.time
    ensures RoomAfter(Shop(p), [Asks(AddIsu(a.isu, a.time))]) == RoomState(NOW, [a], [])
  {
    assert RoomAfter(Shop(p), []) == EMPTY_ROOM;
    AcceptedNow(Shop(p), [], EMPTY_ROOM, AddIsu(a.isu, a.time));
    assert [] + [Asks(AddIsu(a.isu, a.time))] == [Asks(AddIsu(a.isu, a.time))];
  }

  /** The first copy is bought with the isu of one add. */
  lemma OneBought(p: Base, a: Adding, dated: int)
    requires NOW <= a.time <= dated && p <= a.isu
    ensures RoomAfter(Shop(p), [Asks(AddIsu(a.isu, a.time)), Asks(BuyItem(1, 0, dated))])
      == RoomState(NOW, [a], [Buying(1, 1, dated)])
  {
    var q := BuyItem(1, 0, dated);
    OneAdded(p, a);
    ShopPrices(p, 1);
    OneAddBalance(p, a, dated);
    hide Pow, Balance, RoomAfter, Price;
    assert [Asks(AddIsu(a.isu, a.time))] + [Asks(q)] == [Asks(AddIsu(a.isu, a.time)), Asks(q)];
    AcceptedNow(Shop(p), [Asks(AddIsu(a.isu, a.time))], RoomState(NOW, [a], []), q);
  }

  /** The status at the end of an answered run, if in debt there or not timely. */
  lemma EndIsRefused(ms: Masters, hs: seq<Happening>, st: GameStatus, d: Dicts)
    requires FairRun(hs) && EverythingAnswered(hs) && EndsWith(ms, hs, st) && DictsOf(LogOf(ms, hs), d)
    requires var s := RoomAfter(ms, hs);
      Balance(ms, s.adding, s.buying, s.time) < 0 || !Timely(s.buying, s.time)
    ensures |st.schedule| > 0 && !BenchVerdict(ms, st, d)
  {
    EndVerdict(ms, hs, st, d);
  }

  lemma TwoAskFairly(q: Request, r: Request)
    requires q.AddIsu? && 0 <= q.isu && q.time != 0 && r.BuyItem? && r.time != 0
    ensures FairRun([Asks(q), Asks(r)]) && EverythingAnswered([Asks(q), Asks(r)])
  {
  }

  lemma DebtRoom(p: Base)
    ensures var s := RoomAfter(Shop(p), [Asks(AddIsu(p, NOW + 500)), Asks(BuyItem(1, 0, NOW + 500))]);
            s.time == NOW && Balance(Shop(p), s.adding, s.buying, s.time) < 0
  {
    OneBought(p, Adding(NOW + 500, p), NOW + 500);
    OneRowBalance(p, Adding(NOW + 500, p), NOW + 500, NOW);
  }

  /**
   A purchase dated half a second ahead is paid for by an add of the same time; until then the balance is negative,
   and the status is refused.
   */
  lemma DebtIsRefused(p: Base, st: GameStatus, d: Dicts)
    requires var hs := [Asks(AddIsu(p, NOW + 500)), Asks(BuyItem(1, 0, NOW + 500))];
      EndsWith(Shop(p), hs, st) && DictsOf(LogOf(Shop(p), hs), d)
    ensures |st.schedule| > 0 && !BenchVerdict(Shop(p), st, d)
  {
    var hs := [Asks(AddIsu(p, NOW + 500)), Asks(BuyItem(1, 0, NOW + 500))];
    TwoAskFairly(AddIsu(p, NOW + 500), BuyItem(1, 0, NOW + 500));
    hide Shop, RoomAfter, LogOf, DictsOf, EndsWith, Balance, FairRun, EverythingAnswered, BenchVerdict;
    DebtRoom(p);
    EndIsRefused(Shop(p), hs, st, d);
  }

  lemma DisorderRoom(p: Base)
    ensures var s := RoomAfter(Shop(p),
      [Asks(AddIsu(2 * p, NOW)), Asks(BuyItem(1, 0, NOW + 10)), Asks(BuyItem(1, 1, NOW + 5))]);
            s.time == NOW && !InTimeOrderFrom(s.buying, NOW)
  {
    var a, first, q := Adding(NOW, 2 * p), Buying(1, 1, NOW + 10), BuyItem(1, 1, NOW + 5);
    var hs := [Asks(AddIsu(2 * p, NOW)), Asks(BuyItem(1, 0, NOW + 10))];
    OneBought(p, a, NOW + 10);
    OneRowBalance(p, a, NOW + 10, NOW + 5);
    ShopPrices(p, 2);
    SingleSum(first, OfItem(1));
    hide Pow, Balance, RoomAfter, Price;
    assert hs + [Asks(q)] == [Asks(AddIsu(2 * p, NOW)), Asks(BuyItem(1, 0, NOW + 10)), Asks(q)];
    AcceptedNow(Shop(p), hs, RoomState(NOW, [a], [first]), q);
    var both := [first] + [Buying(1, 2, NOW + 5)];
    assert both[0].item == both[1].item && NOW < both[0].time && both[1].time < both[0].time;
  }

  /** The second copy dated before the first: the status lists builds the validator cannot match with the log. */
  lemma DisorderIsRefused(p: Base, st: GameStatus, d: Dicts)
    requires var hs := [Asks(AddIsu(2 * p, NOW)), Asks(BuyItem(1, 0, NOW + 10)), Asks(BuyItem(1, 1, NOW + 5))];
      EndsWith(Shop(p), hs, st) && DictsOf(LogOf(Shop(p), hs), d)
    ensures |st.schedule| > 0 && !BenchVerdict(Shop(p), st, d)
  {
    var hs := [Asks(AddIsu(2 * p, NOW)), Asks(BuyItem(1, 0, NOW + 10)), Asks(BuyItem(1, 1, NOW + 5))];
    assert FairRun(hs) && EverythingAnswered(hs);
    hide Shop, RoomAfter, LogOf, DictsOf, EndsWith, Balance, FairRun, EverythingAnswered, BenchVerdict, InTimeOrderFrom;
    DisorderRoom(p);
    EndIsRefused(Shop(p), hs, st, d);
  }

  lemma BeyondRoom(p: Base)
    ensures var s := RoomAfter(Shop(p), [Asks(AddIsu(p, NOW)), Asks(BuyItem(1, 0, NOW + 1500))]);
            s.time == NOW && 0 <= Balance(Shop(p), s.adding, s.buying, NOW) && InTimeOrderFrom(s.buying, NOW)
              && !WithinWindow(s.buying, NOW)
  {
    hide RoomAfter, Balance, Shop;
    OneBought(p, Adding(NOW, p), NOW + 1500);
    OneRowBalance(p, Adding(NOW, p), NOW + 1500, NOW);
    assert Buying(1, 1, NOW + 1500) in [Buying(1, 1, NOW + 1500)];
  }

  /** The first copy dated a second and a half ahead, and paid for: no building entry can hold it. */
  lemma BeyondIsRefused(p: Base, st: GameStatus, d: Dicts)
    requires var hs := [Asks(AddIsu(p, NOW)), Asks(BuyItem(1, 0, NOW + 1500))];
      EndsWith(Shop(p), hs, st) && DictsOf(LogOf(Shop(p), hs), d)
    ensures |st.schedule| > 0 && !BenchVerdict(Shop(p), st, d)
    ensures var s := RoomAfter(Shop(p), [Asks(AddIsu(p, NOW)), Asks(BuyItem(1, 0, NOW + 1500))]);
            0 <= Balance(Shop(p), s.adding, s.buying, s.time) && InTimeOrderFrom(s.buying, s.time)
  {
    var hs := [Asks(AddIsu(p, NOW)), Asks(BuyItem(1, 0, NOW + 1500))];
    TwoAskFairly(AddIsu(p, NOW), BuyItem(1, 0, NOW + 1500));
    hide Shop, RoomAfter, LogOf, DictsOf, EndsWith, Balance, FairRun, EverythingAnswered, BenchVerdict, InTimeOrderFrom,
      WithinWindow;
    BeyondRoom(p);
    EndIsRefused(Shop(p), hs, st, d);
  }

  // ---- A wrapped search ---------------------------------------------------------------------------------------------

  const DEAR: Base := 9223372036854775

  /** A window of power 1 in which one add comes in the next millisecond. */
  lemma OneAddSchedule(w: Window, isu: int)
    requires w.power == 1 && w.adds == map[w.start + 1 := isu] && w.buys == map[]
    ensures ScheduleTo(w, Horizon(w)) == [Point(w.start, w.base, 1), Point(w.start + 1, w.base + 1 + 1000 * isu, 1)]
  {
    var t := w.start + 1;
    assert BuysAt(w, t) == [] && PowerNow(w, w.start) == 1 && PowerNow(w, t) == 1;
    assert BalanceNow(w, w.start) == w.base && GetOr(w.adds, t, 0) == isu;
    assert BalanceNow(w, t) == w.base + 1 + 1000 * isu;
    assert PointAt(w, t) == Point(t, w.base + 1 + 1000 * isu, 1);
    assert ScheduleTo(w, t) == ScheduleTo(w, w.start) + [PointAt(w, t)];
    QuietStretch(w, t, Horizon(w));
  }

  lemma DearWindowWraps(w: Window)
    requires w.start == NOW && w.base == 0 && w.power == 1 && w.adds == map[NOW + 1 := DEAR + 1] && w.buys == map[]
    ensures WindowWraps(w, 1000 * DEAR)
  {
    OneAddSchedule(w, DEAR + 1);
    var ts, xs, vs := [1500000000000, 1500000000001], [0, 9223372036854776001], [1, 1];
    assert PointsOf(ScheduleTo(w, Horizon(w)), ts, xs, vs);
    OverflowExample();
    hide ScheduleTo, Answer, IsFirst, Shape, Wraps, PointsOf, WindowWraps;
    ColumnsWrap(w, 1000 * DEAR, ts, xs, vs);
  }

  /** The first copy bought at NOW for an add of its price, and another add in the next millisecond. */
  lemma TwoAddTables(p: Base, isu: int)
    ensures var adding, buying := [Adding(NOW, p), Adding(NOW + 1, isu)], [Buying(1, 1, NOW)];
            var w := WindowOf(Shop(p), adding, buying, NOW);
            w.base == 0 && w.power == 1 && w.adds == map[NOW + 1 := isu] && w.buys == map[] && Bought(buying, 1) == 1
  {
    var a, b, y := Adding(NOW, p), Adding(NOW + 1, isu), Buying(1, 1, NOW);
    ShopPrices(p, 1);
    SingleSum(a, IsuBy(NOW));
    SumPush([a], b, IsuBy(NOW));
    assert [a] + [b] == [a, b] && [a, b][..1] == [a] && [a][..0] == [] && [y][..0] == [];
    SingleSum(y, Cost(Shop(p)));
    SingleSum(y, Gain(Shop(p), NOW));
    SingleSum(y, PowerBy(Shop(p), NOW));
    SingleSum(y, OfItem(1));
    hide Pow, Price, Power, Shop;
    assert FutureAdds([a], NOW) == map[] && FutureAdds([a, b], NOW) == map[NOW + 1 := isu];
    assert FutureBuys([y], NOW) == map[];
  }

  lemma TwoAddRoom(p: Base, isu: int)
    ensures RoomAfter(Shop(p), [Asks(AddIsu(p, NOW)), Asks(BuyItem(1, 0, NOW)), Asks(AddIsu(isu, NOW + 1))])
         == RoomState(NOW, [Adding(NOW, p), Adding(NOW + 1, isu)], [Buying(1, 1, NOW)])
  {
    var hs, q := [Asks(AddIsu(p, NOW)), Asks(BuyItem(1, 0, NOW))], AddIsu(isu, NOW + 1);
    OneBought(p, Adding(NOW, p), NOW);
    assert hs + [Asks(q)] == [Asks(AddIsu(p, NOW)), Asks(BuyItem(1, 0, NOW)), Asks(q)];
    hide Pow, RoomAfter, Shop;
    AcceptedNow(Shop(p), hs, RoomState(NOW, [Adding(NOW, p)], [Buying(1, 1, NOW)]), q);
  }

  /** Alike windows with the same balance wrap alike. */
  lemma WrapsAlike(v: Window, w: Window, need: int)
    requires Alike(v, w) && v.base == w.base
    ensures WindowWraps(v, need) == WindowWraps(w, need)
  {
    SameSchedule(v, w, Horizon(v));
  }

  /** The search for the next copy of item i wraps on the tables' own window. */
  ghost predicate WrapsFor(ms: Masters, adding: seq<Adding>, buying: seq<Buying>, c: int, i: int)
  {
    i in ms && WindowWraps(WindowOf(ms, adding, buying, c), Need(ms, i, Bought(buying, i)))
  }

  /**
   The upper window of a solvent, timely status is the true one, so the status is refused if a listed item's search
   wraps there.
   */
  lemma WrappedTrueWindow(ms: Masters, st: GameStatus, d: Dicts, adding: seq<Adding>, buying: seq<Buying>, c: int,
                          i: int)
    requires Computed(ms, st, adding, buying, c) && Timely(buying, c) && Explains(d, adding, buying, c)
      && AllAnswered(d)
    requires c + 1000 < INT64_BOUND && WrapsFor(ms, adding, buying, c, i)
    ensures |st.schedule| > 0 && !BenchVerdict(ms, st, d)
  {
    var v, need := WindowOf(ms, adding, buying, c), Need(ms, i, Bought(buying, i));
    AnsweredVerdict(ms, st, d, adding, buying, c);
    WrappedIsListed(ms, st, adding, buying, c, i);
    if BenchVerdict(ms, st, d) {
      DrawnCounts(ms, st, adding, buying, c);
      FitStatusAgrees(ms, st, d);
      OrderKeepsBuiltFirst(buying, c, c);
      UpperIsTrue(ms, st, d, adding, buying, c);
      WrapsAlike(v, HighWindow(ms, st, d), need);
    }
  }

  lemma WrapReaches(w: Window, need: int)
    requires WindowWraps(w, need)
    ensures OnSaleTo(w, need, Horizon(w)).Some?
  {
    var ps := ScheduleTo(w, Horizon(w));
    assert Values(ps)[|ps| - 1] == ps[|ps| - 1].milliIsu;
    ReachedIsOnSale(w, need);
  }

  lemma WrappedIsListed(ms: Masters, st: GameStatus, adding: seq<Adding>, buying: seq<Buying>, c: int, i: int)
    requires Drawn(ms, st, adding, buying, c) && WrapsFor(ms, adding, buying, c, i)
    ensures i in OnSaleTable(st.onSale) && NextPrice(ms, st, i) == Need(ms, i, Bought(buying, i))
  {
    var v, need := WindowOf(ms, adding, buying, c), Need(ms, i, Bought(buying, i));
    WrapReaches(v, need);
    DrawnCounts(ms, st, adding, buying, c);
    ListedCountsAre(ms, st.items, buying, c);
    var needs := Needs(ms, BoughtMap(ms, buying));
    assert i in needs && needs[i] == need;
    ListedTimesAre(st.onSale, OnSaleMap(v, needs, Horizon(v)));
  }

  lemma WrapAtEndIsRefused(ms: Masters, hs: seq<Happening>, st: GameStatus, d: Dicts, i: int)
    requires FairRun(hs) && EverythingAnswered(hs) && EndsWith(ms, hs, st) && DictsOf(LogOf(ms, hs), d)
    requires var s := RoomAfter(ms, hs);
      && 0 <= Balance(ms, s.adding, s.buying, s.time) && Timely(s.buying, s.time)
        && WrapsFor(ms, s.adding, s.buying, s.time, i)
    ensures |st.schedule| > 0 && !BenchVerdict(ms, st, d)
  {
    var s := RoomAfter(ms, hs);
    EndIsDrawn(ms, hs, st, d);
    hide FairRun, EverythingAnswered, DictsOf, LogOf, RoomAfter, Timely, WrapsFor, Explains, AllAnswered, BenchVerdict,
      Drawn, Balance;
    assert Computed(ms, st, s.adding, s.buying, s.time);
    WrappedTrueWindow(ms, st, d, s.adding, s.buying, s.time, i);
  }

  lemma DearTablesWrap()
    ensures var adding, buying := [Adding(NOW, DEAR), Adding(NOW + 1, DEAR + 1)], [Buying(1, 1, NOW)];
      0 <= Balance(Shop(DEAR), adding, buying, NOW) && Timely(buying, NOW)
        && WrapsFor(Shop(DEAR), adding, buying, NOW, 1)
  {
    var adding, buying := [Adding(NOW, DEAR), Adding(NOW + 1, DEAR + 1)], [Buying(1, 1, NOW)];
    TwoAddTables(DEAR, DEAR + 1);
    ShopPrices(DEAR, 2);
    assert 1 in Shop(DEAR);
    hide Shop, WindowWraps, Pow, Price, FutureAdds, FutureBuys;
    DearWindowWraps(WindowOf(Shop(DEAR), adding, buying, NOW));
  }

  lemma ThreeAskFairly(q: Request, r: Request, p: Request)
    requires q.AddIsu? && 0 <= q.isu && q.time != 0 && r.BuyItem? && r.time != 0 && p.AddIsu? && 0 <= p.isu
      && p.time != 0
    ensures FairRun([Asks(q), Asks(r), Asks(p)]) && EverythingAnswered([Asks(q), Asks(r), Asks(p)])
  {
  }

  /**
   A solvent, timely status that truthfully lists an item as on sale in a millisecond, refused because the search for
   it wraps.
   */
  lemma WrapIsRefused(st: GameStatus, d: Dicts)
    requires var hs := [Asks(AddIsu(DEAR, NOW)), Asks(BuyItem(1, 0, NOW)), Asks(AddIsu(DEAR + 1, NOW + 1))];
      EndsWith(Shop(DEAR), hs, st) && DictsOf(LogOf(Shop(DEAR), hs), d)
    ensures |st.schedule| > 0 && !BenchVerdict(Shop(DEAR), st, d)
    ensures var s := RoomAfter(Shop(DEAR),
      [Asks(AddIsu(DEAR, NOW)), Asks(BuyItem(1, 0, NOW)), Asks(AddIsu(DEAR + 1, NOW + 1))]);
            0 <= Balance(Shop(DEAR), s.adding, s.buying, s.time) && Timely(s.buying, s.time)
  {
    var hs := [Asks(AddIsu(DEAR, NOW)), Asks(BuyItem(1, 0, NOW)), Asks(AddIsu(DEAR + 1, NOW + 1))];
    ThreeAskFairly(AddIsu(DEAR, NOW), BuyItem(1, 0, NOW), AddIsu(DEAR + 1, NOW + 1));
    hide LogOf, DictsOf, FairRun, EverythingAnswered, BenchVerdict, Timely, Shop, RoomAfter, EndsWith, WrapsFor,
      Balance;
    TwoAddRoom(DEAR, DEAR + 1);
    DearTablesWrap();
    WrapAtEndIsRefused(Shop(DEAR), hs, st, d, 1);
  }

  // ---- The "something wrong 2" exit ---------------------------------------------------------------------------------

  /** A request lost on its way, and nothing else unanswered. */
  lemma LostAddIsOpen(log: seq<Entry>, isu: int, time: int, d: Dicts)
    requires DictsOf(log + [Entry(AddIsu(isu, time), false, false)], d) && forall e :: e in log ==> e.answered
    ensures BuysAnswered(d) && DictSum(d.addsOpen, time) == isu
  {
    var lost := Entry(AddIsu(isu, time), false, false);
    var all := log + [lost];
    assert lost in all && forall e :: e in all && !e.answered ==> e == lost;
    SameMap(d.earliest, map[]);
    SameMap(d.latest, map[]);
    assert AddsAt(lost, time);
    AllZero(log, OpenIsu(time));
    SumPush(log, lost, OpenIsu(time));
    DictSumIs(d.addsOpen, time, [time]);
    SingleSum(time, ValueBy(d.addsOpen, time));
  }

  lemma AllZero(log: seq<Entry>, f: Entry -> int)
    requires forall e :: e in log ==> f(e) == 0
    ensures Sum(log, f) == 0
  {
    forall k | 0 <= k < |log| ensures f(log[k]) == 0 {
      assert log[k] in log;
    }
    Zeros(log, f);
  }

  /** If every success was answered, the confirmed isu is the table's. */
  lemma ConfirmedIsuIsTrue(ms: Masters, hs: seq<Happening>, d: Dicts, c: int)
    requires DictsOf(LogOf(ms, hs), d) && forall e :: e in LogOf(ms, hs) && e.success ==> e.answered
    ensures DictSum(d.adds, c) == Sum(RoomAfter(ms, hs).adding, IsuBy(c))
  {
    var log, adding := LogOf(ms, hs), RoomAfter(ms, hs).adding;
    RoomStaysValid(ms, hs);
    hide LogOf, RoomAfter;
    forall t ensures GetOr(d.adds, t, 0) == GetOr(AddsOf(adding), t, 0) {
      IsuIsLogged(ms, hs, t);
      TableValues(adding, t);
      forall k | 0 <= k < |log| ensures TookEffect(t)(log[k]) == SucceededIsu(t)(log[k]) {
        assert log[k] in log;
      }
      SumAgree(log, TookEffect(t), SucceededIsu(t));
    }
    DictSumAtMost(d.adds, AddsOf(adding), c);
    DictSumAtMost(AddsOf(adding), d.adds, c);
    TableTotal(adding, c);
  }

  /** With the purchases answered and the confirmed isu true, the windows are the true one and the open isu above it. */
  lemma OpenIsuIsAbove(ms: Masters, st: GameStatus, d: Dicts, adding: seq<Adding>, buying: seq<Buying>, c: int)
    requires Drawn(ms, st, adding, buying, c) && Timely(buying, c) && Explains(d, adding, buying, c)
    requires BuysAnswered(d) && DictSum(d.adds, c) == Sum(adding, IsuBy(c))
    ensures |st.schedule| > 0 && FitsLog(st, d)
    ensures Alike(WindowOf(ms, adding, buying, c), LowWindow(ms, st, d))
    ensures LowWindow(ms, st, d).base == Balance(ms, adding, buying, c)
      && HighBase(ms, st, d) == Balance(ms, adding, buying, c) + 1000 * DictSum(d.addsOpen, c)
  {
    OrderKeepsBuiltFirst(buying, c, c);
    GenuineFitsLog(ms, st, d, adding, buying, c);
    WindowsBracket(ms, st, d, adding, buying, c);
    StartsAt(ms, st, adding, buying, c);
    DrawnCounts(ms, st, adding, buying, c);
    hide Alike, FitsLog, ListsTimes, ListsAdds;
    ListedViewsAgree(WindowOf(ms, adding, buying, c), LowWindow(ms, st, d), st.items, BoughtMap(ms, buying));
    FitItemsAgree(ms, st, d);
    WindowsDiffer(ms, st, d);
    DrawnReadsTrue(ms, st, d, adding, buying, c);
    TrueReadingIsWindow(ms, st, adding, buying, c);
  }

  const DEARER: Base := 9223372036854776

  /**
   The lower search passes the first segment over because its quotient is too long for int64; the upper one stops there
   and wraps.
   */
  lemma SearchesPart()
    ensures var pr, ts, vs := 1000 * DEARER, [NOW, NOW + 1], [1, 1];
            Answer(pr, ts, [0, 9223372036854776001], vs) == NOW + 1
              && Answer(pr, ts, [1000, 9223372036854777001], vs) < -1
  {
    var pr, ts, vs := 9223372036854776000, [1500000000000, 1500000000001], [1, 1];
    var x1s, x2s := [0, 9223372036854776001], [1000, 9223372036854777001];
    assert Steps(pr, 0, 1) == pr && Steps(pr, 1000, 1) == pr - 1000;
    assert PassedOver(pr, ts, x1s, vs, 0) && !PassedOver(pr, ts, x1s, vs, 1);
    assert Stop(pr, ts, x1s, vs, 0) == Stop(pr, ts, x1s, vs, 1) == 1;
    WrapFits(ts[0] + pr - 1000);
    assert !PassedOver(pr, ts, x2s, vs, 0);
    assert Stop(pr, ts, x2s, vs, 0) == 0;
  }

  lemma SearchesPartOn(v: Window)
    requires v.start == NOW && v.base == 0 && v.power == 1 && v.adds == map[NOW + 1 := DEARER] && v.buys == map[]
    ensures Searched(v, 1000 * DEARER) == Some(NOW + 1) && Searched(Raised(v, 1000), 1000 * DEARER).None?
  {
    hide Answer, ScheduleTo;
    SearchesPart();
    OneAddSchedule(v, DEARER);
    OneAddSchedule(Raised(v, 1000), DEARER);
    var ps, qs := ScheduleTo(v, Horizon(v)), ScheduleTo(Raised(v, 1000), Horizon(v));
    assert Times(ps) == Times(qs) == [NOW, NOW + 1] && Slopes(ps) == Slopes(qs) == [1, 1];
    assert Values(ps) == [0, 9223372036854776001] && Values(qs) == [1000, 9223372036854777001];
  }

  /** The exit refuses whatever the status shows of the item. */
  lemma PartedSearchesRefuse(ms: Masters, st: GameStatus, d: Dicts, i: int)
    requires |st.schedule| > 0 && i in ms
    requires Searched(LowWindow(ms, st, d), NextPrice(ms, st, i)).Some?
      && Searched(HighWindow(ms, st, d), NextPrice(ms, st, i)).None?
    ensures !BenchVerdict(ms, st, d)
  {
    var low, needs := LowWindow(ms, st, d), Needs(ms, BoughtCounts(st.items));
    assert low.ms == ms && i in needs && needs[i] == NextPrice(ms, st, i);
    assert !SearchedBetween(st, low, HighWindow(ms, st, d), i);
  }

  lemma SearchedAlike(v: Window, w: Window, need: int)
    requires Alike(v, w) && v.base == w.base
    ensures Searched(v, need) == Searched(w, need)
  {
    SameSchedule(v, w, Horizon(v));
  }

  /** If the searches part between the true window and the same with the open isu, the status is refused. */
  lemma PartedTrueWindow(ms: Masters, st: GameStatus, d: Dicts, adding: seq<Adding>, buying: seq<Buying>, c: int,
                         i: int)
    requires Drawn(ms, st, adding, buying, c) && Timely(buying, c) && Explains(d, adding, buying, c)
    requires BuysAnswered(d) && DictSum(d.adds, c) == Sum(adding, IsuBy(c)) && i in ms
    requires var v, need := WindowOf(ms, adding, buying, c), Need(ms, i, Bought(buying, i));
      Searched(v, need).Some? && Searched(Raised(v, v.base + 1000 * DictSum(d.addsOpen, c)), need).None?
    ensures |st.schedule| > 0 && FitsLog(st, d)
    ensures Searched(LowWindow(ms, st, d), NextPrice(ms, st, i)).Some?
      && Searched(HighWindow(ms, st, d), NextPrice(ms, st, i)).None?
    ensures !BenchVerdict(ms, st, d)
  {
    var v, need := WindowOf(ms, adding, buying, c), Need(ms, i, Bought(buying, i));
    hide Drawn, Timely, Explains, BuysAnswered, FitsLog, LowWindow, HighBase, Searched, BenchVerdict, NextPrice, Alike,
      Need, Bought, DictSum, Balance;
    OpenIsuIsAbove(ms, st, d, adding, buying, c);
    PriceIsListed(ms, st, adding, buying, c, i);
    SearchedAlike(v, LowWindow(ms, st, d), need);
    RaisedAlike(v, LowWindow(ms, st, d), HighBase(ms, st, d));
    SearchedAlike(Raised(v, HighBase(ms, st, d)), HighWindow(ms, st, d), need);
    PartedSearchesRefuse(ms, st, d, i);
  }

  lemma PriceIsListed(ms: Masters, st: GameStatus, adding: seq<Adding>, buying: seq<Buying>, c: int, i: int)
    requires Drawn(ms, st, adding, buying, c) && i in ms
    ensures NextPrice(ms, st, i) == Need(ms, i, Bought(buying, i))
  {
    DrawnCounts(ms, st, adding, buying, c);
    ListedCountsAre(ms, st.items, buying, c);
    assert i in Needs(ms, BoughtMap(ms, buying));
  }

  lemma RaisedAlike(v: Window, w: Window, base: int)
    requires Alike(v, w)
    ensures Alike(Raised(v, base), Raised(w, base))
  {
  }

  /** An answered run of the shop whose last request is lost. */
  function LostRun(): seq<Happening>
  {
    [Asks(AddIsu(DEARER, NOW)), Asks(BuyItem(1, 0, NOW)), Asks(AddIsu(DEARER, NOW + 1)), Lost(AddIsu(1, NOW))]
  }

  lemma LostRunIs(d: Dicts)
    requires DictsOf(LogOf(Shop(DEARER), LostRun()), d)
    ensures RoomAfter(Shop(DEARER), LostRun())
         == RoomState(NOW, [Adding(NOW, DEARER), Adding(NOW + 1, DEARER)], [Buying(1, 1, NOW)])
    ensures FairRun(LostRun()) && BuysAnswered(d) && DictSum(d.addsOpen, NOW) == 1
    ensures DictSum(d.adds, NOW) == Sum(RoomAfter(Shop(DEARER), LostRun()).adding, IsuBy(NOW))
  {
    var hs := [Asks(AddIsu(DEARER, NOW)), Asks(BuyItem(1, 0, NOW)), Asks(AddIsu(DEARER, NOW + 1))];
    ThreeAskFairly(AddIsu(DEARER, NOW), BuyItem(1, 0, NOW), AddIsu(DEARER, NOW + 1));
    assert hs + [Lost(AddIsu(1, NOW))] == LostRun();
    assert FairRun(LostRun());
    hide LogOf, RoomAfter, FairRun, DictsOf, Shop, EverythingAnswered, DictSum;
    TwoAddRoom(DEARER, DEARER);
    OneMore(Shop(DEARER), hs, Lost(AddIsu(1, NOW)));
    EntriesAnswered(Shop(DEARER), hs);
    LostAddIsOpen(LogOf(Shop(DEARER), hs), 1, NOW, d);
    ConfirmedIsuIsTrue(Shop(DEARER), LostRun(), d, NOW);
  }

  lemma LostTables()
    ensures var adding, buying := [Adding(NOW, DEARER), Adding(NOW + 1, DEARER)], [Buying(1, 1, NOW)];
      var v := WindowOf(Shop(DEARER), adding, buying, NOW);
      Timely(buying, NOW) && v.base == 0 && 1 in Shop(DEARER)
        && Need(Shop(DEARER), 1, Bought(buying, 1)) == 1000 * DEARER
        && Searched(v, 1000 * DEARER).Some? && Searched(Raised(v, 1000), 1000 * DEARER).None?
  {
    var adding, buying := [Adding(NOW, DEARER), Adding(NOW + 1, DEARER)], [Buying(1, 1, NOW)];
    TwoAddTables(DEARER, DEARER);
    ShopPrices(DEARER, 2);
    assert 1 in Shop(DEARER);
    hide Shop, Searched, Pow, Price, FutureAdds, FutureBuys;
    SearchesPartOn(WindowOf(Shop(DEARER), adding, buying, NOW));
  }

  /**
   The "something wrong 2" exit is reachable: an honest, solvent, timely status is refused because of a request that
   was lost.
   */
  lemma SomethingIsWrong(st: GameStatus, d: Dicts)
    requires EndsWith(Shop(DEARER), LostRun(), st) && DictsOf(LogOf(Shop(DEARER), LostRun()), d)
    ensures |st.schedule| > 0 && FitsLog(st, d)
    ensures Searched(LowWindow(Shop(DEARER), st, d), NextPrice(Shop(DEARER), st, 1)).Some?
      && Searched(HighWindow(Shop(DEARER), st, d), NextPrice(Shop(DEARER), st, 1)).None?
    ensures !BenchVerdict(Shop(DEARER), st, d)
  {
    var s := RoomAfter(Shop(DEARER), LostRun());
    hide LogOf, RoomAfter, LostRun, FairRun, DictsOf, Shop, DictSum, EndsWith, Explains, BuysAnswered, Drawn, Timely,
      FitsLog, Searched, BenchVerdict, LowWindow, HighBase, NextPrice, WindowOf, Need, Bought;
    LostRunIs(d);
    RunIsDrawn(Shop(DEARER), LostRun(), st, d);
    LostTables();
    PartedTrueWindow(Shop(DEARER), st, d, s.adding, s.buying, NOW, 1);
  }
}
