/** validateStatus: the slow validator used when every request was answered. */
module StatusCheck {
  import opened BenchLog
  import opened Common
  import opened Exponents
  import opened Format
  import opened Ledger
  import opened Status
  import opened StatusReading
  import opened Sums
  import opened Windows

  /** The logged time of the k-th copy's purchase. */
  function Logged(d: Dicts): (int, nat) -> int { (item: int, k: nat) => GetOr(d.buys, Copy(item, k - 1), 0) }

  /** The k-th copy's purchase is logged, and reported as built exactly if it is dated by c. */
  predicate CopyAgrees(d: Dicts, c: int, x: ItemStatus, k: nat)
  {
    && Copy(x.itemId, k - 1) in d.buys
    && (k <= x.countBuilt <==> d.buys[Copy(x.itemId, k - 1)] <= c)
  }

  ghost predicate CopiesAgree(d: Dicts, c: int, x: ItemStatus)
  {
    forall k: nat :: 1 <= k <= x.countBought ==> CopyAgrees(d, c, x, k)
  }

  /** A successful purchase the status does not count must be dated after it. */
  predicate NothingMissed(d: Dicts, c: int, x: ItemStatus)
  {
    Copy(x.itemId, x.countBought) in d.buys ==> c < d.buys[Copy(x.itemId, x.countBought)]
  }

  predicate AddBacked(d: Dicts, a: Adding) { a.time in d.adds && a.isu <= d.adds[a.time] }

  ghost function LoggedWindow(ms: Masters, st: GameStatus, d: Dicts): Window
    requires |st.schedule| > 0
  {
    StatusWindow(ms, st, DictSum(d.adds, st.schedule[0].time), Flatten(st.items, BuiltPart(Logged(d))),
      Flatten(st.items, FuturePart(Logged(d))))
  }

  ghost predicate NoneNegative(ps: seq<Point>)
  {
    forall k :: 0 <= k < |ps| ==> 0 <= ps[k].milliIsu
  }

  ghost predicate SolventShown(w: Window)
  {
    0 <= w.base && NoneNegative(ScheduleTo(w, Horizon(w)))
  }

  /** The item is listed as the window shows it. */
  ghost predicate Viewed(w: Window, x: ItemStatus) { x == ItemView(w, x.itemId, x.countBought) }

  /** st lists what the window shows: schedule, every item, and for every item its on-sale time or its absence. */
  ghost predicate Matches(st: GameStatus, w: Window)
  {
    && st.schedule == RoundSchedule(ScheduleTo(w, Horizon(w)))
    && (forall k :: 0 <= k < |st.items| ==> Viewed(w, st.items[k]))
    && (forall i :: i in w.ms ==>
      Lookup(OnSaleTable(st.onSale), i) == Lookup(OnSaleMap(w, Needs(w.ms, BoughtCounts(st.items)), Horizon(w)), i))
  }

  ghost predicate BackedByLog(ms: Masters, st: GameStatus, d: Dicts)
    requires |st.schedule| > 0
  {
    && (forall k :: 0 <= k < |st.adding| ==> AddBacked(d, st.adding[k]))
    && (forall k :: 0 <= k < |st.items| ==>
      CopiesAgree(d, st.schedule[0].time, st.items[k]) && NothingMissed(d, st.schedule[0].time, st.items[k]))
  }

  /** What the slow validator accepts. */
  ghost predicate StatusAccepts(ms: Masters, st: GameStatus, d: Dicts)
    requires |st.schedule| > 0
  {
    && BackedByLog(ms, st, d)
    && SolventShown(LoggedWindow(ms, st, d))
    && Matches(st, LoggedWindow(ms, st, d))
  }

  // ---- The loops ---------------------------------------------------------------------------------------------

  method ReadCopy(ms: Masters, d: Dicts, c: int, ghost isu: int, x: ItemStatus, k: nat, acc: Totals,
                  ghost built: seq<Buying>, ghost future: seq<Buying>)
    returns (r: Option<Totals>)
    requires x.itemId in ms && 1 <= k && acc == TotalsOf(ms, c, isu, built, future)
    ensures r.Some? <==> CopyAgrees(d, c, x, k)
    ensures r.Some? && k <= x.countBuilt ==>
      r.value == TotalsOf(ms, c, isu, built + [Buying(x.itemId, k, Logged(d)(x.itemId, k))], future)
    ensures r.Some? && x.countBuilt < k ==>
      r.value == TotalsOf(ms, c, isu, built, future + [Buying(x.itemId, k, Logged(d)(x.itemId, k))])
  {
    if Copy(x.itemId, k - 1) !in d.buys {
      return None;
    }
    var t := d.buys[Copy(x.itemId, k - 1)];
    var milliIsu := acc.milliIsu - 1000 * Price(ms, x.itemId, k);
    if k <= x.countBuilt {
      if t > c {
        return None;
      }
      PushBuiltRow(ms, c, isu, built, future, Buying(x.itemId, k, t));
      var power := Power(ms, x.itemId, k);
      return Some(Totals(milliIsu + power * (c - t), acc.totalPower + power,
                         acc.itemPower[x.itemId := acc.itemPower[x.itemId] + power], acc.buyingAt));
    } else {
      if t <= c {
        return None;
      }
      PushFutureRow(ms, c, isu, built, future, Buying(x.itemId, k, t));
      return Some(Totals(milliIsu, acc.totalPower, acc.itemPower,
                         acc.buyingAt[t := GetOr(acc.buyingAt, t, []) + [Buying(x.itemId, k, t)]]));
    }
  }

  function Lesser(a: nat, b: nat): nat { if a <= b then a else b }

  method ReadItem(ms: Masters, d: Dicts, c: int, ghost isu: int, x: ItemStatus, acc: Totals, ghost built: seq<Buying>,
                  ghost future: seq<Buying>)
    returns (r: Option<Totals>)
    requires x.itemId in ms && x.countBuilt <= x.countBought && acc == TotalsOf(ms, c, isu, built, future)
    ensures r.Some? <==> CopiesAgree(d, c, x) && NothingMissed(d, c, x)
    ensures r.Some? ==>
      r.value == TotalsOf(ms, c, isu, built + BuiltPart(Logged(d))(x), future + FuturePart(Logged(d))(x))
  {
    ghost var f := Logged(d);
    r := Some(acc);
    assert built + Copies(x.itemId, 0, 0, f) == built && future + Copies(x.itemId, x.countBuilt, 0, f) == future;
    for k := 0 to x.countBought
      invariant r.Some? && forall j: nat :: 1 <= j <= k ==> CopyAgrees(d, c, x, j)
      invariant r.value
        == TotalsOf(ms, c, isu, built + Copies(x.itemId, 0, Lesser(k, x.countBuilt), f),
          future + Copies(x.itemId, x.countBuilt, k, f))
    {
      ghost var b, u := built + Copies(x.itemId, 0, Lesser(k, x.countBuilt), f),
        future + Copies(x.itemId, x.countBuilt, k, f);
      ghost var row := Buying(x.itemId, k + 1, f(x.itemId, k + 1));
      r := ReadCopy(ms, d, c, isu, x, k + 1, r.value, b, u);
      if r.None? {
        return;
      }
      if k < x.countBuilt {
        assert b + [row] == built + Copies(x.itemId, 0, k + 1, f);
        assert Copies(x.itemId, x.countBuilt, k + 1, f) == [];
      } else {
        assert u + [row] == future + Copies(x.itemId, x.countBuilt, k + 1, f);
      }
    }
    if Copy(x.itemId, x.countBought) in d.buys {
      if d.buys[Copy(x.itemId, x.countBought)] <= c {
        return None;
      }
    }
  }

  method ReadItems(ms: Masters, d: Dicts, c: int, opening: int, ghost isu: int, items: seq<ItemStatus>)
    returns (r: Option<Totals>)
    requires opening == 1000 * isu && ItemsOk(ms, items)
    ensures r.Some? <==> forall k :: 0 <= k < |items| ==> CopiesAgree(d, c, items[k]) && NothingMissed(d, c, items[k])
    ensures r.Some? ==>
      r.value == TotalsOf(ms, c, isu, Flatten(items, BuiltPart(Logged(d))), Flatten(items, FuturePart(Logged(d))))
  {
    var zero: map<int, int> := map i | i in ms :: 0;
    SameTable(zero, PowerTable(ms, []));
    r := Some(Totals(opening, 0, zero, map[]));
    for k := 0 to |items|
      invariant r.Some? && forall j :: 0 <= j < k ==> CopiesAgree(d, c, items[j]) && NothingMissed(d, c, items[j])
      invariant r.value
        == TotalsOf(ms, c, isu, Flatten(items[..k], BuiltPart(Logged(d))), Flatten(items[..k], FuturePart(Logged(d))))
    {
      assert items[..k + 1][..k] == items[..k];
      r := ReadItem(ms, d, c, isu, items[k], r.value, Flatten(items[..k], BuiltPart(Logged(d))),
        Flatten(items[..k], FuturePart(Logged(d))));
      if r.None? {
        return;
      }
    }
    assert items[..|items|] == items;
  }

  method ReadCounts(items: seq<ItemStatus>) returns (built: map<int, nat>, bought: map<int, nat>)
    ensures built == BuiltCounts(items) && bought == BoughtCounts(items)
  {
    built, bought := map[], map[];
    for k := 0 to |items|
      invariant built == BuiltCounts(items[..k]) && bought == BoughtCounts(items[..k])
    {
      assert items[..k + 1][..k] == items[..k];
      built := built[items[k].itemId := items[k].countBuilt];
      bought := bought[items[k].itemId := items[k].countBought];
    }
    assert items[..|items|] == items;
  }

  method ReadAdding(d: Dicts, list: seq<Adding>) returns (ok: bool, adding: map<int, int>)
    ensures ok <==> forall k :: 0 <= k < |list| ==> AddBacked(d, list[k])
    ensures ok ==> adding == AddsOf(list)
  {
    adding := map[];
    for k := 0 to |list|
      invariant forall j :: 0 <= j < k ==> AddBacked(d, list[j])
      invariant adding == AddsOf(list[..k])
    {
      assert list[..k + 1][..k] == list[..k];
      var a := list[k];
      adding := adding[a.time := a.isu];
      if a.time !in d.adds {
        return false, adding;
      } else if adding[a.time] > d.adds[a.time] {
        return false, adding;
      }
    }
    assert list[..|list|] == list;
    ok := true;
  }

  method ReadOnSale(list: seq<OnSale>) returns (m: map<int, int>)
    ensures m == OnSaleTable(list)
  {
    m := map[];
    for k := 0 to |list|
      invariant m == OnSaleTable(list[..k])
    {
      assert list[..k + 1][..k] == list[..k];
      m := m[list[k].itemId := list[k].time];
    }
    assert list[..|list|] == list;
  }

  // ---- The comparisons ---------------------------------------------------------------------------------------------

  /** Rounding a negative balance ends the benchmark's program; that outcome is not an acceptance. */
  method CompareSchedule(actual: seq<ScheduleEntry>, schedule: seq<Point>) returns (ok: bool)
    ensures ok <==> NoneNegative(schedule) && actual == RoundSchedule(schedule)
  {
    hide Big2Exp;
    for k := 0 to |schedule|
      invariant forall j :: 0 <= j < k ==> 0 <= schedule[j].milliIsu
    {
      if schedule[k].milliIsu < 0 {
        return false;
      }
    }
    if |actual| != |schedule| {
      return false;
    }
    for k := 0 to |actual|
      invariant forall j :: 0 <= j < k ==> actual[j] == RoundPoint(schedule[j])
    {
      if actual[k].time != schedule[k].time {
        return false;
      }
      if actual[k].milliIsu != Big2Exp(schedule[k].milliIsu) {
        return false;
      }
      if actual[k].totalPower != Big2Exp(schedule[k].totalPower) {
        return false;
      }
    }
    return true;
  }

  method CompareBuilding(actual: seq<Building>, batches: seq<Batch>) returns (ok: bool)
    ensures ok <==> actual == RoundBatches(batches)
  {
    hide Big2Exp;
    if |actual| != |batches| {
      return false;
    }
    for k := 0 to |actual|
      invariant forall j :: 0 <= j < k ==> actual[j] == RoundBatch(batches[j])
    {
      if actual[k].time != batches[k].time {
        return false;
      }
      if actual[k].countBuilt != batches[k].countBuilt {
        return false;
      }
      if actual[k].power != Big2Exp(batches[k].power) {
        return false;
      }
    }
    return true;
  }

  method CompareItem(w: Window, x: ItemStatus, batches: seq<Batch>) returns (ok: bool)
    requires x.itemId in w.itemPower && x.itemId in w.itemBuilt && batches == BatchesTo(w, x.itemId, Horizon(w))
    ensures ok <==> Viewed(w, x)
  {
    if x.countBuilt != w.itemBuilt[x.itemId] {
      return false;
    }
    if x.nextPrice != Big2Exp(Price(w.ms, x.itemId, x.countBought + 1)) {
      return false;
    }
    if x.power != Big2Exp(w.itemPower[x.itemId]) {
      return false;
    }
    ok := CompareBuilding(x.building, batches);
  }

  method CompareItems(w: Window, items: seq<ItemStatus>, building: map<int, seq<Batch>>) returns (ok: bool)
    requires forall i :: i in w.ms ==> i in w.itemPower && i in w.itemBuilt && i in building
    requires forall i :: i in w.ms ==> building[i] == BatchesTo(w, i, Horizon(w))
    requires forall k :: 0 <= k < |items| ==> items[k].itemId in w.ms
    ensures ok <==> forall k :: 0 <= k < |items| ==> Viewed(w, items[k])
  {
    for k := 0 to |items|
      invariant forall j :: 0 <= j < k ==> Viewed(w, items[j])
    {
      ok := CompareItem(w, items[k], building[items[k].itemId]);
      if !ok {
        return;
      }
    }
    return true;
  }

  method CompareOnSale(ids: set<int>, statusOnSale: map<int, int>, itemOnSale: map<int, int>) returns (ok: bool)
    ensures ok <==> forall i :: i in ids ==> Lookup(statusOnSale, i) == Lookup(itemOnSale, i)
  {
    var order := Listing(ids);
    for k := 0 to |order|
      invariant forall j :: 0 <= j < k ==> Lookup(statusOnSale, order[j]) == Lookup(itemOnSale, order[j])
    {
      var i := order[k];
      assert i in order;
      if (i in statusOnSale) != (i in itemOnSale) {
        return false;
      } else if i in statusOnSale && statusOnSale[i] != itemOnSale[i] {
        return false;
      }
    }
    return true;
  }

  // ---- The validator ------------------------------------------------------------------------------------------------

  lemma EveryItemListed(ms: Masters, items: seq<ItemStatus>)
    requires ItemsOk(ms, items)
    ensures UniqueIds(items)
    ensures BuiltCounts(items).Keys == ms.Keys && BoughtCounts(items).Keys == ms.Keys
  {
    var ids := seq(|items|, k requires 0 <= k < |items| => items[k].itemId);
    CountsAreListed(items);
    forall i ensures i in ms.Keys <==> i in BuiltCounts(items).Keys
             ensures i in ms.Keys <==> i in BoughtCounts(items).Keys
    {
      if i in ms.Keys {
        DistinctCovers(ids, ms.Keys, i);
        var k :| 0 <= k < |ids| && ids[k] == i;
        assert items[k].itemId == i;
      }
    }
    SameIds(BuiltCounts(items).Keys, ms.Keys);
    SameIds(BoughtCounts(items).Keys, ms.Keys);
  }

  lemma {:induction false} FlattenItems(ms: Masters, items: seq<ItemStatus>, g: ItemStatus -> seq<Buying>)
    requires forall k :: 0 <= k < |items| ==> items[k].itemId in ms && forall b :: b in g(items[k]) ==>
      b.item == items[k].itemId
    ensures forall b :: b in Flatten(items, g) ==> b.item in ms
  {
    if |items| > 0 {
      FlattenItems(ms, items[..|items| - 1], g);
    }
  }

  lemma StatusWindowIsKnown(ms: Masters, st: GameStatus, isu: int, built: seq<Buying>, future: seq<Buying>)
    requires |st.schedule| > 0 && ItemsOk(ms, st.items) && forall b :: b in future ==> b.item in ms
    ensures KnownWindow(StatusWindow(ms, st, isu, built, future))
  {
    var w := StatusWindow(ms, st, isu, built, future);
    EveryItemListed(ms, st.items);
    SameIds(w.itemPower.Keys, ms.Keys);
    forall t, b | t in w.buys && b in w.buys[t] ensures b.item in ms {
      ByTimeAt(future, t);
      assert b in Where(future, DatedAt(t));
    }
  }

  lemma FutureItems(ms: Masters, items: seq<ItemStatus>, f: (int, nat) -> int)
    requires ItemsOk(ms, items)
    ensures forall b :: b in Flatten(items, FuturePart(f)) ==> b.item in ms
  {
    forall k | 0 <= k < |items| ensures forall b :: b in FuturePart(f)(items[k]) ==> b.item == items[k].itemId {
      CopiesHold(items[k].itemId, items[k].countBuilt, items[k].countBought, f);
    }
    FlattenItems(ms, items, FuturePart(f));
  }

  /** The simulation of the logged window, compared with what the status shows. */
  method CompareWindow(ms: Masters, st: GameStatus, w: Window, bought: map<int, nat>) returns (ok: bool)
    requires w.ms == ms && KnownWindow(w) && ItemsOk(ms, st.items) && bought == BoughtCounts(st.items)
    ensures ok <==> SolventShown(w) && Matches(st, w)
  {
    hide NoneNegative, Viewed, ItemView, ItemOk;
    if w.base < 0 {
      return false;
    }
    var needs := Needs(ms, bought);
    var onSale0 := MarkOnSale(needs, w.base, 0, map[]);
    SameTable(onSale0, OnSaleMap(w, needs, w.start));
    var schedule, building, onSale := Simulate(w, needs, onSale0);
    var scheduleOk := CompareSchedule(st.schedule, schedule);
    if !scheduleOk {
      return false;
    }
    var itemsOk := CompareItems(w, st.items, building);
    if !itemsOk {
      return false;
    }
    var statusOnSale := ReadOnSale(st.onSale);
    ok := CompareOnSale(ms.Keys, statusOnSale, onSale);
  }

  /** Reads the status against the log into the window it implies. */
  method ReadStatus(ms: Masters, st: GameStatus, d: Dicts) returns (r: Option<Window>)
    requires |st.schedule| > 0 && ItemsOk(ms, st.items)
    ensures r.Some? <==> BackedByLog(ms, st, d)
    ensures r.Some? ==> r.value == LoggedWindow(ms, st, d)
  {
    var c := st.schedule[0].time;
    var opening := SumDirectly(d.adds, c);
    var addsOk, adding := ReadAdding(d, st.adding);
    if !addsOk {
      return None;
    }
    var totals := ReadItems(ms, d, c, opening, DictSum(d.adds, c), st.items);
    if totals.None? {
      return None;
    }
    var built, bought := ReadCounts(st.items);
    var t := totals.value;
    r := Some(Window(ms, c, t.milliIsu, t.totalPower, t.itemPower, built, adding, t.buyingAt));
  }

  lemma LoggedWindowIsKnown(ms: Masters, st: GameStatus, d: Dicts)
    requires |st.schedule| > 0 && ItemsOk(ms, st.items)
    ensures KnownWindow(LoggedWindow(ms, st, d))
  {
    FutureItems(ms, st.items, Logged(d));
    StatusWindowIsKnown(ms, st, DictSum(d.adds, st.schedule[0].time), Flatten(st.items, BuiltPart(Logged(d))),
      Flatten(st.items, FuturePart(Logged(d))));
  }

  /** Accepts exactly the statuses that show the window the log implies. */
  method ValidateStatus(ms: Masters, st: GameStatus, d: Dicts) returns (ok: bool)
    requires FormatOk(ms, st)
    ensures ok <==> StatusAccepts(ms, st, d)
  {
    var w := ReadStatus(ms, st, d);
    if w.None? {
      return false;
    }
    var built, bought := ReadCounts(st.items);
    LoggedWindowIsKnown(ms, st, d);
    ok := CompareWindow(ms, st, w.value, bought);
  }
}
