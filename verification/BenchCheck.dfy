/**
 validateStatusBench: the fast validator.  Requests without a response may or may not have taken effect, so it
 keeps a lower and an upper balance and accepts whatever lies between.
 */
module BenchCheck {
  import opened BenchLog
  import opened Common
  import opened EventJump
  import opened Exponents
  import opened Format
  import opened Ledger
  import opened OnSaleSearch
  import opened Status
  import opened StatusCheck
  import opened StatusReading
  import opened Sums
  import opened Windows

  /** The latest a built copy can have been built, for the lower balance. */
  function LowTime(d: Dicts, c: int): (int, nat) -> int {
    (item: int, k: nat) =>
      var q := Copy(item, k - 1);
      if q in d.buys then d.buys[q] else if GetOr(d.latest, q, 0) > c then c else GetOr(d.latest, q, 0)
  }

  /** The earliest it can have been built, for the upper balance. */
  function HighTime(d: Dicts): (int, nat) -> int {
    (item: int, k: nat) => var q := Copy(item, k - 1); if q in d.buys then d.buys[q] else GetOr(d.earliest, q, 0)
  }

  predicate Requested(d: Dicts, x: ItemStatus, k: nat)
  {
    var q := Copy(x.itemId, k - 1);
    q in d.buys || (q in d.earliest && q in d.latest)
  }

  ghost predicate AllRequested(d: Dicts, x: ItemStatus)
  {
    forall k: nat :: 1 <= k <= x.countBought ==> Requested(d, x, k)
  }

  ghost predicate BuiltInTime(d: Dicts, c: int, x: ItemStatus)
  {
    forall k: nat :: 1 <= k <= x.countBuilt ==> HighTime(d)(x.itemId, k) <= c
  }

  /** The building entry that is taken to hold copy k: the index moves on by at most one per copy. */
  function WalkIdx(building: seq<Building>, built: nat, k: nat): nat
    decreases k
  {
    if k <= built then 0
    else NextIdx(building, WalkIdx(building, built, k - 1), k)
  }

  function NextIdx(building: seq<Building>, p: nat, k: nat): nat
  {
    if p < |building| && k > building[p].countBuilt then p + 1 else p
  }

  function WalkTime(x: ItemStatus, k: nat): int
  {
    var p := WalkIdx(x.building, x.countBuilt, k);
    if p < |x.building| then x.building[p].time else 0
  }

  /** The rows of copies count_built+1..k, timed by the building list. */
  function WalkRows(x: ItemStatus, k: nat): seq<Buying>
    decreases k
  {
    if k <= x.countBuilt then [] else WalkRows(x, k - 1) + [Buying(x.itemId, k, WalkTime(x, k))]
  }

  function WalkPart(): ItemStatus -> seq<Buying> { (x: ItemStatus) => WalkRows(x, x.countBought) }

  /** Copy k, bought but not built, has a building entry whose time fits the log. */
  predicate ComingFits(d: Dicts, c: int, x: ItemStatus, k: nat)
  {
    var p, q := WalkIdx(x.building, x.countBuilt, k), Copy(x.itemId, k - 1);
    && p < |x.building|
    && var t := x.building[p].time;
       if q in d.buys then d.buys[q] == t
       else t <= GetOr(d.latest, q, 0) && GetOr(d.earliest, q, 0) <= t && c + 1 <= t
  }

  /** So do all the copies up to k that are bought but not built. */
  ghost predicate FitTo(d: Dicts, c: int, x: ItemStatus, k: nat)
  {
    forall j: nat :: x.countBuilt < j <= k ==> ComingFits(d, c, x, j)
  }

  predicate AddPossible(d: Dicts, a: Adding)
  {
    (a.time in d.adds || a.time in d.addsOpen) && a.isu <= GetOr(d.adds, a.time, 0) + GetOr(d.addsOpen, a.time, 0)
  }

  ghost function LowBuilt(st: GameStatus, d: Dicts): seq<Buying>
    requires |st.schedule| > 0
  {
    Flatten(st.items, BuiltPart(LowTime(d, st.schedule[0].time)))
  }

  ghost function HighBuilt(st: GameStatus, d: Dicts): seq<Buying> { Flatten(st.items, BuiltPart(HighTime(d))) }
  ghost function Coming(st: GameStatus): seq<Buying> { Flatten(st.items, WalkPart()) }

  /** The window with the lower opening balance. */
  ghost function LowWindow(ms: Masters, st: GameStatus, d: Dicts): Window
    requires |st.schedule| > 0
  {
    StatusWindow(ms, st, DictSum(d.adds, st.schedule[0].time), LowBuilt(st, d), Coming(st))
  }

  ghost function HighBase(ms: Masters, st: GameStatus, d: Dicts): int
    requires |st.schedule| > 0
  {
    var c := st.schedule[0].time;
    Opening(ms, c, DictSum(d.adds, c) + DictSum(d.addsOpen, c), HighBuilt(st, d), Coming(st))
  }

  function AtLeastZero(n: int): int { if n < 0 then 0 else n }

  predicate Between(e: ScheduleEntry, low: Point, high: Point)
  {
    && e.time == low.time && e.totalPower == Big2Exp(low.totalPower)
    && Big2Exp(AtLeastZero(low.milliIsu)).LessEq(e.milliIsu) && e.milliIsu.LessEq(Big2Exp(high.milliIsu))
  }

  ghost predicate ScheduleBetween(s: seq<ScheduleEntry>, low: seq<Point>, high: seq<Point>)
  {
    |s| == |low| == |high| && forall k :: 0 <= k < |s| ==> Between(s[k], low[k], high[k])
  }

  /**
   An on-sale time t (or none) against the earliest possible (upper balance) and the latest possible (lower balance).
   */
  predicate OnSaleFits(t: Option<int>, earliest: Option<int>, latest: Option<int>)
  {
    match earliest
    case None => latest.None? && t.None?
    case Some(a) => match latest
      case None => t.None? || a <= t.value
      case Some(b) => t.Some? && a <= t.value <= b
  }

  /** The item is on sale from x no later than from y, if from y at all. */
  predicate FromNoLater(x: Option<int>, y: Option<int>) { y.Some? ==> x.Some? && x.value <= y.value }

  /** Fitting means lying between the earliest and the latest time, a missing one being later than any other. */
  lemma FitsIfBetween(t: Option<int>, earliest: Option<int>, latest: Option<int>)
    ensures OnSaleFits(t, earliest, latest) <==> FromNoLater(earliest, t) && FromNoLater(t, latest)
  {
  }

  ghost predicate FitsLog(st: GameStatus, d: Dicts)
    requires |st.schedule| > 0
  {
    && (forall k :: 0 <= k < |st.adding| ==> AddPossible(d, st.adding[k]))
    && (forall k :: 0 <= k < |st.items| ==> AllRequested(d, st.items[k]))
    && (forall k :: 0 <= k < |st.items| ==> ItemFits(d, st.schedule[0].time, st.items[k]))
  }

  ghost predicate ItemFits(d: Dicts, c: int, x: ItemStatus)
  {
    BuiltInTime(d, c, x) && FitTo(d, c, x, x.countBought) && NothingMissed(d, c, x)
  }

  ghost predicate ShowsBetween(st: GameStatus, w1: Window, w2: Window)
  {
    && ScheduleBetween(st.schedule, ScheduleTo(w1, Horizon(w1)), ScheduleTo(w2, Horizon(w2)))
    && (forall k :: 0 <= k < |st.items| ==> Viewed(w1, st.items[k]))
    && (forall i :: i in w1.ms ==> OnSaleBetween(st, w1, w2, i))
  }

  ghost predicate OnSaleBetween(st: GameStatus, w1: Window, w2: Window, i: int)
  {
    var needs := Needs(w1.ms, BoughtCounts(st.items));
    OnSaleFits(Lookup(OnSaleTable(st.onSale), i), Lookup(OnSaleMap(w2, needs, Horizon(w2)), i),
      Lookup(OnSaleMap(w1, needs, Horizon(w1)), i))
  }

  /** What the fast validator accepts. */
  ghost predicate BenchAccepts(ms: Masters, st: GameStatus, d: Dicts)
    requires |st.schedule| > 0
  {
    && FitsLog(st, d)
    && 0 <= HighBase(ms, st, d)
    && LiesBetween(st, LowWindow(ms, st, d), HighBase(ms, st, d))
  }

  /** The status shows nothing outside the window w and the same window opened with base2. */
  ghost predicate LiesBetween(st: GameStatus, w: Window, base2: int)
  {
    NoneNegative(ScheduleTo(Raised(w, base2), Horizon(w))) && ShowsBetween(st, w, Raised(w, base2))
  }

  ghost predicate SearchIsExact(w: Window, needs: map<int, int>)
  {
    0 <= w.start && Growing(w) && forall i :: i in needs ==> !WindowWraps(w, needs[i])
  }

  ghost predicate BothAreExact(w: Window, base2: int, needs: map<int, int>)
  {
    SearchIsExact(w, needs) && SearchIsExact(Raised(w, base2), needs)
  }

  // The validator compares on-sale times with what its two searches return, which is what OnSaleBetween compares as
  // long as no search wraps.

  function SearchedMap(w: Window, needs: map<int, int>): map<int, int>
  {
    map i | i in needs && Searched(w, needs[i]).Some? :: Searched(w, needs[i]).value
  }

  ghost predicate SearchedBetween(st: GameStatus, w1: Window, w2: Window, i: int)
  {
    var needs := Needs(w1.ms, BoughtCounts(st.items));
    OnSaleFits(Lookup(OnSaleTable(st.onSale), i), Lookup(SearchedMap(w2, needs), i), Lookup(SearchedMap(w1, needs), i))
  }

  ghost predicate PassesBetween(st: GameStatus, w: Window, base2: int)
  {
    var w2 := Raised(w, base2);
    && NoneNegative(ScheduleTo(w2, Horizon(w2)))
    && ScheduleBetween(st.schedule, ScheduleTo(w, Horizon(w)), ScheduleTo(w2, Horizon(w2)))
    && (forall k :: 0 <= k < |st.items| ==> Viewed(w, st.items[k]))
    && (forall i :: i in w.ms ==> SearchedBetween(st, w, w2, i))
  }

  /** The fast validator's verdict, wrapped searches and all. */
  ghost predicate BenchVerdict(ms: Masters, st: GameStatus, d: Dicts)
    requires |st.schedule| > 0
  {
    && FitsLog(st, d)
    && 0 <= HighBase(ms, st, d)
    && PassesBetween(st, LowWindow(ms, st, d), HighBase(ms, st, d))
  }

  lemma SearchedMapIsOnSale(w: Window, needs: map<int, int>)
    requires Horizon(w) < INT64_BOUND && SearchIsExact(w, needs)
    ensures SearchedMap(w, needs) == OnSaleMap(w, needs, Horizon(w))
  {
    forall i | i in needs ensures Searched(w, needs[i]) == OnSaleTo(w, needs[i], Horizon(w)) {
      SearchedIsOnSale(w, needs[i]);
    }
    SameTable(SearchedMap(w, needs), OnSaleMap(w, needs, Horizon(w)));
  }

  /** When no search wraps, the verdict is that the status lies between the two windows. */
  lemma PassingIsLying(st: GameStatus, w: Window, base2: int)
    requires Horizon(w) < INT64_BOUND && BothAreExact(w, base2, Needs(w.ms, BoughtCounts(st.items)))
    ensures PassesBetween(st, w, base2) <==> LiesBetween(st, w, base2)
  {
    var w2, needs := Raised(w, base2), Needs(w.ms, BoughtCounts(st.items));
    SearchedMapIsOnSale(w, needs);
    SearchedMapIsOnSale(w2, needs);
    forall i | i in w.ms ensures SearchedBetween(st, w, w2, i) <==> OnSaleBetween(st, w, w2, i) {
    }
  }

  // ---- The loops ----------------------------------------------------------------------------------------------

  method ReadAddingBench(d: Dicts, list: seq<Adding>) returns (ok: bool, adding: map<int, int>)
    ensures ok <==> forall k :: 0 <= k < |list| ==> AddPossible(d, list[k])
    ensures ok ==> adding == AddsOf(list)
  {
    adding := map[];
    for k := 0 to |list|
      invariant forall j :: 0 <= j < k ==> AddPossible(d, list[j])
      invariant adding == AddsOf(list[..k])
    {
      assert list[..k + 1][..k] == list[..k];
      var a := list[k];
      adding := adding[a.time := a.isu];
      if a.time !in d.adds && a.time !in d.addsOpen {
        return false, adding;
      } else {
        var v := 0;
        if a.time in d.adds {
          v := v + d.adds[a.time];
        }
        if a.time in d.addsOpen {
          v := v + d.addsOpen[a.time];
        }
        if adding[a.time] > v {
          return false, adding;
        }
      }
    }
    assert list[..|list|] == list;
    ok := true;
  }

  method CheckRequested(d: Dicts, items: seq<ItemStatus>) returns (ok: bool)
    ensures ok <==> forall k :: 0 <= k < |items| ==> AllRequested(d, items[k])
  {
    for k := 0 to |items|
      invariant forall j :: 0 <= j < k ==> AllRequested(d, items[j])
    {
      for i := 1 to items[k].countBought + 1
        invariant forall j: nat :: 1 <= j < i ==> Requested(d, items[k], j)
      {
        assert Requested(d, items[k], i) <==>
          || Copy(items[k].itemId, i - 1) in d.buys
          || (Copy(items[k].itemId, i - 1) in d.earliest && Copy(items[k].itemId, i - 1) in d.latest);
        if Copy(items[k].itemId, i - 1) !in d.buys {
          if Copy(items[k].itemId, i - 1) !in d.earliest || Copy(items[k].itemId, i - 1) !in d.latest {
            return false;
          }
        }
      }
    }
    return true;
  }

  datatype Totals2 = Totals2(milliIsu1: int, milliIsu2: int, totalPower: int, itemPower: map<int, int>,
    buyingAt: map<int, seq<Buying>>)

  ghost predicate Reads(t: Totals2, ms: Masters, c: int, isu1: int, isu2: int, low: seq<Buying>, high: seq<Buying>,
                        future: seq<Buying>)
  {
    && t.milliIsu1 == Opening(ms, c, isu1, low, future) && t.milliIsu2 == Opening(ms, c, isu2, high, future)
    && t.totalPower == Sum(low, PowerRow(ms)) && t.itemPower == PowerTable(ms, low) && t.buyingAt == ByTime(future)
  }

  method ReadBuiltCopy(ms: Masters, d: Dicts, c: int, ghost isu1: int, ghost isu2: int, item: int, k: nat, acc: Totals2,
                       ghost low: seq<Buying>, ghost high: seq<Buying>, ghost future: seq<Buying>)
    returns (r: Option<Totals2>)
    requires item in ms && 1 <= k && Reads(acc, ms, c, isu1, isu2, low, high, future)
    ensures r.Some? <==> HighTime(d)(item, k) <= c
    ensures r.Some? ==>
      Reads(r.value, ms, c, isu1, isu2, low + [Buying(item, k, LowTime(d, c)(item, k))],
        high + [Buying(item, k, HighTime(d)(item, k))], future)
  {
    var q := Copy(item, k - 1);
    var power := Power(ms, item, k);
    var milliIsu1, milliIsu2 := acc.milliIsu1 - 1000 * Price(ms, item, k), acc.milliIsu2 - 1000 * Price(ms, item, k);
    if q in d.buys {
      if d.buys[q] > c {
        return None;
      }
      milliIsu1 := milliIsu1 + power * (c - d.buys[q]);
      milliIsu2 := milliIsu2 + power * (c - d.buys[q]);
    } else {
      var t1, t2 := GetOr(d.earliest, q, 0), GetOr(d.latest, q, 0);
      if t1 > c {
        return None;
      }
      if t2 > c {
        t2 := c;
      }
      milliIsu1 := milliIsu1 + power * (c - t2);
      milliIsu2 := milliIsu2 + power * (c - t1);
    }
    r := Some(Totals2(milliIsu1, milliIsu2, acc.totalPower + power, acc.itemPower[item := acc.itemPower[item] + power],
      acc.buyingAt));
    PushBuiltCopy(ms, c, isu1, isu2, item, k, LowTime(d, c)(item, k), HighTime(d)(item, k), acc, low, high, future,
      r.value);
  }

  lemma PushBuiltCopy(ms: Masters, c: int, isu1: int, isu2: int, item: int, k: nat, t1: int, t2: int, acc: Totals2,
                      low: seq<Buying>, high: seq<Buying>, future: seq<Buying>, r: Totals2)
    requires item in ms && Reads(acc, ms, c, isu1, isu2, low, high, future)
    requires r.milliIsu1 == acc.milliIsu1 - 1000 * Price(ms, item, k) + Power(ms, item, k) * (c - t1)
    requires r.milliIsu2 == acc.milliIsu2 - 1000 * Price(ms, item, k) + Power(ms, item, k) * (c - t2)
    requires r.totalPower == acc.totalPower + Power(ms, item, k) && r.buyingAt == acc.buyingAt
    requires r.itemPower == acc.itemPower[item := acc.itemPower[item] + Power(ms, item, k)]
    ensures Reads(r, ms, c, isu1, isu2, low + [Buying(item, k, t1)], high + [Buying(item, k, t2)], future)
  {
    hide Opening, PowerTable, ByTime;
    PushBuiltRow(ms, c, isu1, low, future, Buying(item, k, t1));
    PushBuiltRow(ms, c, isu2, high, future, Buying(item, k, t2));
  }

  method ReadBuilt(ms: Masters, d: Dicts, c: int, ghost isu1: int, ghost isu2: int, x: ItemStatus, acc: Totals2,
                   ghost low: seq<Buying>, ghost high: seq<Buying>, ghost future: seq<Buying>)
    returns (r: Option<Totals2>)
    requires x.itemId in ms && Reads(acc, ms, c, isu1, isu2, low, high, future)
    ensures r.Some? <==> BuiltInTime(d, c, x)
    ensures r.Some? ==>
      Reads(r.value, ms, c, isu1, isu2, low + BuiltPart(LowTime(d, c))(x), high + BuiltPart(HighTime(d))(x), future)
  {
    hide Reads;
    ghost var f, g := LowTime(d, c), HighTime(d);
    r := Some(acc);
    ghost var lows, highs := low, high;
    assert lows == low + Copies(x.itemId, 0, 0, f) && highs == high + Copies(x.itemId, 0, 0, g);
    for k := 0 to x.countBuilt
      invariant r.Some? && forall j: nat :: 1 <= j <= k ==> HighTime(d)(x.itemId, j) <= c
      invariant lows == low + Copies(x.itemId, 0, k, f) && highs == high + Copies(x.itemId, 0, k, g)
      invariant Reads(r.value, ms, c, isu1, isu2, lows, highs, future)
    {
      r := ReadBuiltCopy(ms, d, c, isu1, isu2, x.itemId, k + 1, r.value, lows, highs, future);
      if r.None? {
        return;
      }
      lows := lows + [Buying(x.itemId, k + 1, f(x.itemId, k + 1))];
      highs := highs + [Buying(x.itemId, k + 1, g(x.itemId, k + 1))];
    }
  }

  method ReadComingCopy(ms: Masters, d: Dicts, c: int, ghost isu1: int, ghost isu2: int, x: ItemStatus, k: nat,
                        bIdx: nat, acc: Totals2,
                        ghost low: seq<Buying>, ghost high: seq<Buying>, ghost future: seq<Buying>)
    returns (r: Option<Totals2>)
    requires x.countBuilt < k && bIdx == WalkIdx(x.building, x.countBuilt, k)
      && Reads(acc, ms, c, isu1, isu2, low, high, future)
    ensures r.Some? <==> ComingFits(d, c, x, k)
    ensures r.Some? ==> Reads(r.value, ms, c, isu1, isu2, low, high, future + [Buying(x.itemId, k, WalkTime(x, k))])
  {
    if bIdx >= |x.building| {
      return None;
    }
    var q, t := Copy(x.itemId, k - 1), x.building[bIdx].time;
    if q in d.buys {
      if d.buys[q] != t {
        return None;
      }
    } else {
      if t > GetOr(d.latest, q, 0) {
        return None;
      }
      var tt := GetOr(d.earliest, q, 0);
      if tt < c + 1 {
        tt := c + 1;
      }
      if t < tt {
        return None;
      }
    }
    PushFutureRow(ms, c, isu1, low, future, Buying(x.itemId, k, t));
    PushFutureRow(ms, c, isu2, high, future, Buying(x.itemId, k, t));
    var pr := 1000 * Price(ms, x.itemId, k);
    return Some(Totals2(acc.milliIsu1 - pr, acc.milliIsu2 - pr, acc.totalPower, acc.itemPower,
                        acc.buyingAt[t := GetOr(acc.buyingAt, t, []) + [Buying(x.itemId, k, t)]]));
  }

  /** One turn of the loop over the copies still to come: moves the building index, checks the copy, takes its row. */
  method ReadNextComing(ms: Masters, d: Dicts, c: int, ghost isu1: int, ghost isu2: int, x: ItemStatus, k: nat,
                        idx: nat, acc: Totals2,
                        ghost low: seq<Buying>, ghost high: seq<Buying>, ghost future: seq<Buying>)
    returns (r: Option<Totals2>, bIdx: nat)
    requires x.countBuilt <= k && idx == WalkIdx(x.building, x.countBuilt, k)
    requires Reads(acc, ms, c, isu1, isu2, low, high, future + WalkRows(x, k))
    ensures r.Some? <==> ComingFits(d, c, x, k + 1)
    ensures r.Some? ==> Reads(r.value, ms, c, isu1, isu2, low, high, future + WalkRows(x, k + 1))
    ensures bIdx == WalkIdx(x.building, x.countBuilt, k + 1)
  {
    hide Reads, ComingFits;
    bIdx := idx;
    if bIdx < |x.building| && k + 1 > x.building[bIdx].countBuilt {
      bIdx := bIdx + 1;
    }
    assert bIdx == NextIdx(x.building, idx, k + 1);
    r := ReadComingCopy(ms, d, c, isu1, isu2, x, k + 1, bIdx, acc, low, high, future + WalkRows(x, k));
    assert future + WalkRows(x, k + 1) == future + WalkRows(x, k) + [Buying(x.itemId, k + 1, WalkTime(x, k + 1))];
  }

  method ReadComing(ms: Masters, d: Dicts, c: int, ghost isu1: int, ghost isu2: int, x: ItemStatus, acc: Totals2,
                    ghost low: seq<Buying>, ghost high: seq<Buying>, ghost future: seq<Buying>)
    returns (r: Option<Totals2>)
    requires x.countBuilt <= x.countBought && Reads(acc, ms, c, isu1, isu2, low, high, future)
    ensures r.Some? <==> FitTo(d, c, x, x.countBought)
    ensures r.Some? ==> Reads(r.value, ms, c, isu1, isu2, low, high, future + WalkRows(x, x.countBought))
  {
    r := Some(acc);
    var bIdx := 0;
    assert future == future + WalkRows(x, x.countBuilt);
    for k := x.countBuilt to x.countBought
      invariant r.Some? && bIdx == WalkIdx(x.building, x.countBuilt, k)
      invariant FitTo(d, c, x, k)
      invariant Reads(r.value, ms, c, isu1, isu2, low, high, future + WalkRows(x, k))
    {
      r, bIdx := ReadNextComing(ms, d, c, isu1, isu2, x, k, bIdx, r.value, low, high, future);
      if r.None? {
        return;
      }
    }
  }

  method ReadItemBench(ms: Masters, d: Dicts, c: int, ghost isu1: int, ghost isu2: int, x: ItemStatus, acc: Totals2,
                       ghost low: seq<Buying>, ghost high: seq<Buying>, ghost future: seq<Buying>)
    returns (r: Option<Totals2>)
    requires x.itemId in ms && x.countBuilt <= x.countBought && Reads(acc, ms, c, isu1, isu2, low, high, future)
    ensures r.Some? <==> ItemFits(d, c, x)
    ensures r.Some? ==>
      Reads(r.value, ms, c, isu1, isu2, low + BuiltPart(LowTime(d, c))(x), high + BuiltPart(HighTime(d))(x),
        future + WalkPart()(x))
  {
    r := ReadBuilt(ms, d, c, isu1, isu2, x, acc, low, high, future);
    if r.None? {
      return;
    }
    r := ReadComing(ms, d, c, isu1, isu2, x, r.value, low + BuiltPart(LowTime(d, c))(x),
      high + BuiltPart(HighTime(d))(x), future);
    if r.None? {
      return;
    }
    if Copy(x.itemId, x.countBought) in d.buys {
      if d.buys[Copy(x.itemId, x.countBought)] <= c {
        return None;
      }
    }
  }

  method ReadItemsBench(ms: Masters, d: Dicts, c: int, opening1: int, opening2: int, ghost isu1: int, ghost isu2: int,
                        items: seq<ItemStatus>)
    returns (r: Option<Totals2>)
    requires opening1 == 1000 * isu1 && opening2 == 1000 * isu2 && ItemsOk(ms, items)
    ensures r.Some? <==> forall k :: 0 <= k < |items| ==> ItemFits(d, c, items[k])
    ensures r.Some? ==>
      Reads(r.value, ms, c, isu1, isu2, Flatten(items, BuiltPart(LowTime(d, c))),
        Flatten(items, BuiltPart(HighTime(d))), Flatten(items, WalkPart()))
  {
    var zero: map<int, int> := map i | i in ms :: 0;
    SameTable(zero, PowerTable(ms, []));
    r := Some(Totals2(opening1, opening2, 0, zero, map[]));
    ghost var low, high, future: seq<Buying> := [], [], [];
    for k := 0 to |items|
      invariant r.Some? && forall j :: 0 <= j < k ==> ItemFits(d, c, items[j])
      invariant low == Flatten(items[..k], BuiltPart(LowTime(d, c)))
        && high == Flatten(items[..k], BuiltPart(HighTime(d)))
      invariant future == Flatten(items[..k], WalkPart())
      invariant Reads(r.value, ms, c, isu1, isu2, low, high, future)
    {
      assert items[..k + 1][..k] == items[..k];
      r := ReadItemBench(ms, d, c, isu1, isu2, items[k], r.value, low, high, future);
      if r.None? {
        return;
      }
      low, high, future := low + BuiltPart(LowTime(d, c))(items[k]), high + BuiltPart(HighTime(d))(items[k]),
        future + WalkPart()(items[k]);
    }
    assert items[..|items|] == items;
  }

  // ---- Schedules and on-sale times between the two balances ---------------------------------------------------------

  method CompareBetween(actual: seq<ScheduleEntry>, ts: seq<int>, x1s: seq<int>, x2s: seq<int>, vs: seq<int>,
                        ghost low: seq<Point>, ghost high: seq<Point>)
    returns (ok: bool)
    requires PointsOf(low, ts, x1s, vs) && PointsOf(high, ts, x2s, vs)
    ensures ok <==> NoneNegative(high) && ScheduleBetween(actual, low, high)
  {
    hide Big2Exp;
    for k := 0 to |ts|
      invariant forall j :: 0 <= j < k ==> 0 <= high[j].milliIsu
    {
      if x2s[k] < 0 {
        return false;
      }
    }
    if |actual| != |ts| {
      return false;
    }
    for k := 0 to |actual|
      invariant forall j :: 0 <= j < k ==> Between(actual[j], low[j], high[j])
    {
      if actual[k].time != ts[k] {
        return false;
      }
      var milliIsu1 := if x1s[k] < 0 then Big2Exp(0) else Big2Exp(x1s[k]);
      if !(milliIsu1.LessEq(actual[k].milliIsu) && actual[k].milliIsu.LessEq(Big2Exp(x2s[k]))) {
        return false;
      }
      if actual[k].totalPower != Big2Exp(vs[k]) {
        return false;
      }
    }
    return true;
  }

  /** One item's on-sale time: 0 if affordable at once, else what the search finds. */
  method OnSaleTime(ghost w: Window, need: int, base: int, ts: seq<int>, xs: seq<int>, vs: seq<int>)
    returns (r: Option<int>)
    requires base == w.base && -INT64_BOUND <= w.start && Horizon(w) < INT64_BOUND
    requires PointsOf(ScheduleTo(w, Horizon(w)), ts, xs, vs)
    ensures r == Searched(w, need)
  {
    if need <= base {
      return Some(0);
    }
    ScheduleHasShape(w, ts, xs, vs);
    ColumnsOf(ScheduleTo(w, Horizon(w)), ts, xs, vs);
    var t := CalcOnSale(need, ts, xs, vs);
    return if t >= 0 then Some(t) else None;
  }

  method OnSaleTimes(ghost w: Window, needs: map<int, int>, base: int, ts: seq<int>, xs: seq<int>, vs: seq<int>)
    returns (onSale: map<int, int>)
    requires base == w.base && -INT64_BOUND <= w.start && Horizon(w) < INT64_BOUND
    requires PointsOf(ScheduleTo(w, Horizon(w)), ts, xs, vs)
    ensures onSale == SearchedMap(w, needs)
  {
    hide Searched, ScheduleTo, PointsOf;
    onSale := map[];
    var ids := Listing(needs.Keys);
    for k := 0 to |ids|
      invariant forall i :: i in onSale ==> i in ids[..k]
      invariant forall i :: i in ids[..k] ==> i in needs && Lookup(onSale, i) == Searched(w, needs[i])
    {
      var id := ids[k];
      assert ids[..k + 1] == ids[..k] + [id];
      assert id in ids && id !in ids[..k];
      var t := OnSaleTime(w, needs[id], base, ts, xs, vs);
      if t.Some? {
        onSale := onSale[id := t.value];
      }
    }
    assert ids[..|ids|] == ids;
    forall i | i in needs ensures Lookup(onSale, i) == Searched(w, needs[i]) {
      assert i in ids;
    }
    SameTable(onSale, SearchedMap(w, needs));
  }

  method CompareOnSaleBetween(ids: set<int>, statusOnSale: map<int, int>, itemOnSale1: map<int, int>,
                              itemOnSale2: map<int, int>)
    returns (ok: bool)
    ensures ok <==> forall i :: i in ids ==>
      OnSaleFits(Lookup(statusOnSale, i), Lookup(itemOnSale2, i), Lookup(itemOnSale1, i))
  {
    var order := Listing(ids);
    for k := 0 to |order|
      invariant forall j :: 0 <= j < k ==>
        OnSaleFits(Lookup(statusOnSale, order[j]), Lookup(itemOnSale2, order[j]), Lookup(itemOnSale1, order[j]))
    {
      var i := order[k];
      assert i in order;
      var ok0, ok1, ok2 := i in statusOnSale, i in itemOnSale2, i in itemOnSale1;
      if !ok1 {
        if ok2 {
          return false; // "something wrong 2"
        }
        if ok0 {
          return false;
        }
      } else if !ok2 {
        if ok0 && itemOnSale2[i] > statusOnSale[i] {
          return false;
        }
      } else {
        if !ok0 {
          return false;
        }
        if !(itemOnSale2[i] <= statusOnSale[i] && statusOnSale[i] <= itemOnSale1[i]) {
          return false;
        }
      }
    }
    return true;
  }

  // ---- The validator ------------------------------------------------------------------------------------------------

  lemma WalkRowsItems(x: ItemStatus, k: nat)
    ensures forall b :: b in WalkRows(x, k) ==> b.item == x.itemId
  {
  }

  lemma LowWindowIsKnown(ms: Masters, st: GameStatus, d: Dicts)
    requires |st.schedule| > 0 && ItemsOk(ms, st.items)
    ensures KnownWindow(LowWindow(ms, st, d))
  {
    forall k | 0 <= k < |st.items| ensures forall b :: b in WalkPart()(st.items[k]) ==> b.item == st.items[k].itemId {
      WalkRowsItems(st.items[k], st.items[k].countBought);
    }
    FlattenItems(ms, st.items, WalkPart());
    StatusWindowIsKnown(ms, st, DictSum(d.adds, st.schedule[0].time), LowBuilt(st, d), Coming(st));
  }

  method CompareOnSaleTimes(ms: Masters, st: GameStatus, ghost w: Window, base1: int, base2: int, bought: map<int, nat>,
                       ts: seq<int>, x1s: seq<int>, x2s: seq<int>, vs: seq<int>) returns (ok: bool)
    requires w.ms == ms && w.base == base1 && bought == BoughtCounts(st.items)
    requires -INT64_BOUND <= w.start && Horizon(w) < INT64_BOUND
    requires PointsOf(ScheduleTo(w, Horizon(w)), ts, x1s, vs)
    requires PointsOf(ScheduleTo(Raised(w, base2), Horizon(w)), ts, x2s, vs)
    ensures ok <==> forall i :: i in w.ms ==> SearchedBetween(st, w, Raised(w, base2), i)
  {
    var needs := Needs(ms, bought);
    ghost var w2 := Raised(w, base2);
    assert Horizon(w2) == Horizon(w) && w2.start == w.start && w2.base == base2;
    var itemOnSale1 := OnSaleTimes(w, needs, base1, ts, x1s, vs);
    var itemOnSale2 := OnSaleTimes(w2, needs, base2, ts, x2s, vs);
    var statusOnSale := ReadOnSale(st.onSale);
    ok := CompareOnSaleBetween(ms.Keys, statusOnSale, itemOnSale1, itemOnSale2);
    forall i | i in w.ms
      ensures SearchedBetween(st, w, w2, i)
        <==> OnSaleFits(Lookup(statusOnSale, i), Lookup(itemOnSale2, i), Lookup(itemOnSale1, i))
    {
    }
  }

  /** The event-jumping walk and the comparisons against it. */
  method CompareWindows(ms: Masters, st: GameStatus, w: Window, base2: int, bought: map<int, nat>) returns (ok: bool)
    requires w.ms == ms && KnownWindow(w) && ItemsOk(ms, st.items) && bought == BoughtCounts(st.items)
    requires -INT64_BOUND <= w.start && Horizon(w) < INT64_BOUND
    ensures ok <==> PassesBetween(st, w, base2)
  {
    hide NoneNegative, ScheduleBetween, Viewed, SearchedBetween, PointsOf, ScheduleTo, BatchesTo;
    var ts, x1s, x2s, vs, building := JumpThrough(w, base2);
    var scheduleOk := CompareBetween(st.schedule, ts, x1s, x2s, vs, ScheduleTo(w, Horizon(w)),
      ScheduleTo(Raised(w, base2), Horizon(w)));
    if !scheduleOk {
      return false;
    }
    var itemsOk := CompareItems(w, st.items, building);
    if !itemsOk {
      return false;
    }
    ok := CompareOnSaleTimes(ms, st, w, w.base, base2, bought, ts, x1s, x2s, vs);
  }

  /** Reads the status against the log into the lower window and the upper opening balance. */
  method ReadBetween(ms: Masters, st: GameStatus, d: Dicts, opening1: int, opening2: int)
    returns (r: Option<(Window, int)>)
    requires |st.schedule| > 0 && ItemsOk(ms, st.items)
    requires opening1 == 1000 * DictSum(d.adds, st.schedule[0].time)
    requires opening2 == opening1 + 1000 * DictSum(d.addsOpen, st.schedule[0].time)
    ensures r.Some? <==> FitsLog(st, d)
    ensures r.Some? ==> r.value.0 == LowWindow(ms, st, d) && r.value.1 == HighBase(ms, st, d)
  {
    var c := st.schedule[0].time;
    var addsOk, adding := ReadAddingBench(d, st.adding);
    if !addsOk {
      return None;
    }
    var requested := CheckRequested(d, st.items);
    if !requested {
      return None;
    }
    var totals := ReadItemsBench(ms, d, c, opening1, opening2, DictSum(d.adds, c),
      DictSum(d.adds, c) + DictSum(d.addsOpen, c), st.items);
    if totals.None? {
      return None;
    }
    var built, bought := ReadCounts(st.items);
    var t := totals.value;
    r := Some((Window(ms, c, t.milliIsu1, t.totalPower, t.itemPower, built, adding, t.buyingAt), t.milliIsu2));
  }

  /** The searches this status calls for run on growing windows, from a time that is not negative, and none wraps. */
  ghost predicate SearchesAreExact(ms: Masters, st: GameStatus, d: Dicts)
    requires |st.schedule| > 0
  {
    BothAreExact(LowWindow(ms, st, d), HighBase(ms, st, d), Needs(ms, BoughtCounts(st.items)))
  }

  /** Reads the status, refuses a negative upper balance, then compares. */
  method JudgeStatus(ms: Masters, st: GameStatus, d: Dicts, opening1: int, opening2: int) returns (ok: bool)
    requires |st.schedule| > 0 && ItemsOk(ms, st.items)
    requires -INT64_BOUND <= st.schedule[0].time && st.schedule[0].time + 1000 < INT64_BOUND
    requires opening1 == 1000 * DictSum(d.adds, st.schedule[0].time)
    requires opening2 == opening1 + 1000 * DictSum(d.addsOpen, st.schedule[0].time)
    ensures ok <==> BenchVerdict(ms, st, d)
  {
    var r := ReadBetween(ms, st, d, opening1, opening2);
    if r.None? {
      return false;
    }
    var (w, base2) := r.value;
    if base2 < 0 {
      return false;
    }
    var built, bought := ReadCounts(st.items);
    LowWindowIsKnown(ms, st, d);
    ok := CompareWindows(ms, st, w, base2, bought);
  }

  /**
   Accepts exactly by BenchVerdict: as long as no search wraps, the statuses that lie between the two windows the log
   implies.
   */
  method ValidateStatusBench(ms: Masters, st: GameStatus, d: Dicts, keys: seq<int>, sums: map<int, int>,
                             openKeys: seq<int>, openSums: map<int, int>)
    returns (ok: bool)
    requires FormatOk(ms, st) && -INT64_BOUND <= st.schedule[0].time && st.schedule[0].time + 1000 < INT64_BOUND
    requires IsPrefixTable(d.adds, keys, sums) && IsPrefixTable(d.addsOpen, openKeys, openSums)
    ensures ok <==> BenchVerdict(ms, st, d)
    ensures SearchesAreExact(ms, st, d) ==> (ok <==> BenchAccepts(ms, st, d))
  {
    var c := st.schedule[0].time;
    var opening1 := SumByPrefix(d.adds, keys, sums, c);
    var openingOpen := SumByPrefix(d.addsOpen, openKeys, openSums, c);
    ok := JudgeStatus(ms, st, d, opening1, opening1 + openingOpen);
    if SearchesAreExact(ms, st, d) {
      PassingIsLying(st, LowWindow(ms, st, d), HighBase(ms, st, d));
    }
  }
}
