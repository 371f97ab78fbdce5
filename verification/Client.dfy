/** The game client: how it extrapolates a status between updates, and which buttons it enables. */
module Client {
  import opened Bracketing
  import opened Common
  import opened Exponents
  import opened GameLog
  import opened Ledger
  import opened Rooms
  import opened Rows
  import opened Runs
  import opened Status
  import opened StatusReading
  import opened Sums
  import opened Windows

  // ---- The isu counter ----------------------------------------------------------------------------------------------

  /** The balance and power shown at a time: the last schedule entry not after it, extended with its power. */
  method CalcSchedule(schedule: seq<Point>, time: int) returns (r: Option<(int, int)>)
    ensures r.None? <==> forall k :: 0 <= k < |schedule| ==> time < schedule[k].time
    ensures r.Some? ==> exists k :: LastReachedPoint(schedule, time, k) && r.value == Extended(schedule[k], time)
  {
    var k := -1;
    for i := 0 to |schedule|
      invariant -1 <= k < i
      invariant k >= 0 ==> schedule[k].time <= time
      invariant forall j :: k < j < i ==> time < schedule[j].time
    {
      if schedule[i].time <= time {
        k := i;
      }
    }
    if k == -1 {
      return None;
    }
    assert LastReachedPoint(schedule, time, k);
    return Some(Extended(schedule[k], time));
  }

  function Extended(p: Point, time: int): (int, int) { (p.milliIsu + (time - p.time) * p.totalPower, p.totalPower) }

  predicate LastReachedPoint(schedule: seq<Point>, time: int, k: int)
  {
    0 <= k < |schedule| && schedule[k].time <= time && forall j :: k < j < |schedule| ==> time < schedule[j].time
  }

  /** On an exact schedule the client shows B(t) and P(t) at every time of the window. */
  lemma ExtrapolationIsExact(ms: Masters, adding: seq<Adding>, buying: seq<Buying>, c: int, t: int, k: int)
    requires UniqueTimes(adding) && c <= t <= c + 1000
    requires LastReachedPoint(ScheduleTo(WindowOf(ms, adding, buying, c), c + 1000), t, k)
    ensures Extended(ScheduleTo(WindowOf(ms, adding, buying, c), c + 1000)[k], t)
      == (Balance(ms, adding, buying, t), TotalPower(ms, buying, t))
  {
    var w := WindowOf(ms, adding, buying, c);
    ScheduleExtrapolates(w, t, k);
    SimulationIsLedger(ms, adding, buying, c, t);
  }

  // ---- Items --------------------------------------------------------------------------------------------------------

  /** A copy still being built: when it will be done, from now, and its ordinal. */
  datatype Upcoming = Upcoming(dt: int, ordinal: int)

  function LastReached(bs: seq<Building>, time: int): Option<Building>
  {
    if |bs| == 0 then None
    else if bs[|bs| - 1].time <= time then Some(bs[|bs| - 1])
    else LastReached(bs[..|bs| - 1], time)
  }

  function Numbered(low: int, high: int, dt: int): seq<Upcoming>
    decreases high - low
  {
    if high <= low then [] else Numbered(low, high - 1, dt) + [Upcoming(dt, high)]
  }

  function CountBefore(x: ItemStatus, j: nat): int
    requires j <= |x.building|
  {
    if j == 0 then x.countBuilt else x.building[j - 1].countBuilt
  }

  function Comings(x: ItemStatus, time: int, j: nat): seq<Upcoming>
    requires j <= |x.building|
  {
    if j == 0 then []
    else
      var b := x.building[j - 1];
      Comings(x, time, j - 1)
        + (if b.time <= time then [] else Numbered(CountBefore(x, j - 1), b.countBuilt, b.time - time))
  }

  /** One item as the client draws it at a time. */
  method CalcItem(x: ItemStatus, time: int) returns (countBuilt: int, power: Exponential, building: seq<Upcoming>)
    ensures var last := LastReached(x.building, time);
            if last.Some? then countBuilt == last.value.countBuilt && power == last.value.power
            else countBuilt == x.countBuilt && power == x.power
    ensures building == Comings(x, time, |x.building|)
  {
    building := [];
    var k := -1;
    var nn: int := x.countBuilt;
    for j := 0 to |x.building|
      invariant -1 <= k < j
      invariant LastReached(x.building[..j], time) == if k >= 0 then Some(x.building[k]) else None
      invariant nn == CountBefore(x, j)
      invariant building == Comings(x, time, j)
    {
      assert x.building[..j + 1][..j] == x.building[..j];
      var b := x.building[j];
      if b.time <= time {
        k := j;
        nn := b.countBuilt;
      } else {
        var y := nn + 1;
        while y <= b.countBuilt
          invariant nn < y && (y <= b.countBuilt + 1 || y == nn + 1)
          invariant building == Comings(x, time, j) + Numbered(nn, y - 1, b.time - time)
        {
          building := building + [Upcoming(b.time - time, y)];
          y := y + 1;
        }
      }
      nn := b.countBuilt;
    }
    assert x.building[..|x.building|] == x.building;
    countBuilt := if k >= 0 then x.building[k].countBuilt else x.countBuilt;
    power := if k >= 0 then x.building[k].power else x.power;
  }

  /** Up to where the first j entries account for. */
  function Mark(bs: seq<Building>, c: int, j: nat): int
    requires j <= |bs|
  {
    if j == 0 then c else bs[j - 1].time
  }

  predicate BetweenEntries(bs: seq<Building>, c: int, j: nat, t: int)
    requires j <= |bs|
  {
    Mark(bs, c, j) <= t <= c + 1000 && (j < |bs| ==> t < bs[j].time)
  }

  lemma SameBuilt(buying: seq<Buying>, item: int, s: int, t: int)
    requires s <= t && forall b :: b in buying && b.item == item ==> !(s < b.time <= t)
    ensures Built(buying, item, s) == Built(buying, item, t)
    ensures forall ms :: ItemPower(ms, buying, item, s) == ItemPower(ms, buying, item, t)
  {
    forall k | 0 <= k < |buying|
      ensures BuiltBy(item, s)(buying[k]) == BuiltBy(item, t)(buying[k])
      ensures forall ms :: ItemPowerBy(ms, item, s)(buying[k]) == ItemPowerBy(ms, item, t)(buying[k])
    {
      assert buying[k] in buying;
    }
    SumAgree(buying, BuiltBy(item, s), BuiltBy(item, t));
    forall ms ensures ItemPower(ms, buying, item, s) == ItemPower(ms, buying, item, t) {
      SumAgree(buying, ItemPowerBy(ms, item, s), ItemPowerBy(ms, item, t));
    }
  }

  /** Between two entries nothing of the item is built. */
  lemma QuietBetween(buying: seq<Buying>, item: int, c: int, bs: seq<Building>, j: nat, t: int)
    requires TrueBuilding(bs, buying, item, c) && j <= |bs| && BetweenEntries(bs, c, j, t)
    ensures forall b :: b in buying && b.item == item ==> !(Mark(bs, c, j) < b.time <= t)
  {
    forall b | b in buying && b.item == item ensures !(Mark(bs, c, j) < b.time <= t) {
      if c < b.time <= c + 1000 {
        var p :| 0 <= p < |bs| && bs[p].time == b.time;
      }
    }
  }

  lemma BuiltBetween(x: ItemStatus, buying: seq<Buying>, c: int, j: nat, t: int)
    requires TrueItem(x, buying, c) && j <= |x.building| && BetweenEntries(x.building, c, j, t)
    ensures CountBefore(x, j) == Built(buying, x.itemId, t)
    ensures forall ms :: ItemPower(ms, buying, x.itemId, Mark(x.building, c, j)) == ItemPower(ms, buying, x.itemId, t)
  {
    QuietBetween(buying, x.itemId, c, x.building, j, t);
    SameBuilt(buying, x.itemId, Mark(x.building, c, j), t);
  }

  lemma BuiltNeverFalls(buying: seq<Buying>, item: int, s: int, t: int)
    requires s <= t
    ensures Built(buying, item, s) <= Built(buying, item, t)
  {
    SumAtMost(buying, BuiltBy(item, s), BuiltBy(item, t));
  }

  // The copies still to come need no order among the rows: copy o is due when the built count reaches o.

  /** From t on, the built count first reaches the copy after u.dt milliseconds. */
  predicate Due(buying: seq<Buying>, item: int, t: int, u: Upcoming)
  {
    0 < u.dt && Built(buying, item, t + u.dt - 1) < u.ordinal <= Built(buying, item, t + u.dt)
  }

  /** The list holds, once each and in order, the copies after those built at t up to the high-th, when each is due. */
  ghost predicate ListsComing(list: seq<Upcoming>, buying: seq<Buying>, item: int, t: int, high: int)
  {
    && |list| == high - Built(buying, item, t)
    && forall k :: 0 <= k < |list| ==>
      list[k].ordinal == Built(buying, item, t) + 1 + k && Due(buying, item, t, list[k])
  }

  lemma {:induction false} NumberedIs(low: int, high: int, dt: int)
    requires low <= high
    ensures |Numbered(low, high, dt)| == high - low
    ensures forall k :: 0 <= k < high - low ==> Numbered(low, high, dt)[k] == Upcoming(dt, low + 1 + k)
    decreases high - low
  {
    if low < high {
      NumberedIs(low, high - 1, dt);
    }
  }

  /** The copies an entry adds are due at its time. */
  lemma EntryIsDue(x: ItemStatus, buying: seq<Buying>, c: int, t: int, j: nat, o: int)
    requires TrueItem(x, buying, c) && j < |x.building| && c <= t < x.building[j].time <= c + 1000
    requires CountBefore(x, j) < o <= x.building[j].countBuilt
    ensures Due(buying, x.itemId, t, Upcoming(x.building[j].time - t, o))
  {
    BuiltBetween(x, buying, c, j, x.building[j].time - 1);
  }

  lemma EntryExtends(x: ItemStatus, buying: seq<Buying>, c: int, t: int, j: nat, list: seq<Upcoming>)
    requires TrueItem(x, buying, c) && j < |x.building| && c <= t < x.building[j].time <= c + 1000
    requires CountBefore(x, j) <= x.building[j].countBuilt && ListsComing(list, buying, x.itemId, t, CountBefore(x, j))
    ensures ListsComing(list + Numbered(CountBefore(x, j), x.building[j].countBuilt, x.building[j].time - t),
                        buying, x.itemId, t, x.building[j].countBuilt)
  {
    var low, high, dt := CountBefore(x, j), x.building[j].countBuilt, x.building[j].time - t;
    NumberedIs(low, high, dt);
    forall o | low < o <= high ensures Due(buying, x.itemId, t, Upcoming(dt, o)) {
      EntryIsDue(x, buying, c, t, j, o);
    }
    hide TrueItem, CountBefore, Due, Built, Numbered;
  }

  lemma CountReaches(x: ItemStatus, buying: seq<Buying>, c: int, t: int, j: nat)
    requires TrueItem(x, buying, c) && j < |x.building|
    requires c <= t <= c + 1000 && t < x.building[j].time
    ensures Built(buying, x.itemId, t) <= CountBefore(x, j)
  {
    if Mark(x.building, c, j) <= t {
      BuiltBetween(x, buying, c, j, t);
    } else {
      BuiltNeverFalls(buying, x.itemId, t, Mark(x.building, c, j));
    }
  }

  lemma CountsRise(x: ItemStatus, buying: seq<Buying>, c: int, j: nat)
    requires TrueItem(x, buying, c) && j < |x.building|
    ensures CountBefore(x, j) < x.building[j].countBuilt == Built(buying, x.itemId, x.building[j].time)
  {
  }

  lemma {:induction false} ComingsAreListed(x: ItemStatus, buying: seq<Buying>, c: int, t: int, j: nat)
    requires TrueItem(x, buying, c) && j <= |x.building| && c <= t <= c + 1000
    requires forall p :: 0 <= p < |x.building| ==> x.building[p].time <= c + 1000
    ensures CountBefore(x, j) <= Built(buying, x.itemId, t) ==> Comings(x, t, j) == []
    ensures Built(buying, x.itemId, t) <= CountBefore(x, j) ==>
      ListsComing(Comings(x, t, j), buying, x.itemId, t, CountBefore(x, j))
  {
    if j == 0 {
      BuiltNeverFalls(buying, x.itemId, c, t);
    } else {
      var b := x.building[j - 1];
      CountsRise(x, buying, c, j - 1);
      ComingsAreListed(x, buying, c, t, j - 1);
      if b.time <= t {
        BuiltNeverFalls(buying, x.itemId, b.time, t);
      } else {
        CountReaches(x, buying, c, t, j - 1);
        EntryExtends(x, buying, c, t, j - 1, Comings(x, t, j - 1));
      }
    }
  }

  lemma {:induction false} ReachedIndex(bs: seq<Building>, time: int) returns (j: nat)
    requires forall p, q :: 0 <= p < q < |bs| ==> bs[p].time < bs[q].time
    ensures j <= |bs| && LastReached(bs, time) == (if j == 0 then None else Some(bs[j - 1]))
    ensures (j > 0 ==> bs[j - 1].time <= time) && (j < |bs| ==> time < bs[j].time)
  {
    if |bs| == 0 || bs[|bs| - 1].time <= time {
      j := |bs|;
    } else {
      j := ReachedIndex(bs[..|bs| - 1], time);
    }
  }

  /** The building list of a genuine item stays within the window. */
  lemma ViewedEntries(w: Window, x: ItemStatus)
    requires x == ItemView(w, x.itemId, x.countBought)
    ensures forall p :: 0 <= p < |x.building| ==> w.start < x.building[p].time <= w.start + 1000
    ensures forall p :: 0 <= p < |x.building| ==>
      x.building[p].power == Big2Exp(ItemPowerNow(w, x.itemId, x.building[p].time))
  {
    var bs := BatchesTo(w, x.itemId, Horizon(w));
    BatchesAreExact(w, x.itemId, Horizon(w));
    forall p | 0 <= p < |x.building|
      ensures w.start < x.building[p].time <= w.start + 1000
        && x.building[p].power == Big2Exp(ItemPowerNow(w, x.itemId, x.building[p].time))
    {
      assert x.building[p] == RoundBatch(bs[p]);
    }
  }

  lemma MarkPower(ms: Masters, adding: seq<Adding>, buying: seq<Buying>, c: int, x: ItemStatus, j: nat)
    requires x.itemId in ms && x == ItemView(WindowOf(ms, adding, buying, c), x.itemId, x.countBought)
      && j <= |x.building|
    ensures (if j == 0 then x.power else x.building[j - 1].power)
      == Big2Exp(ItemPower(ms, buying, x.itemId, Mark(x.building, c, j)))
  {
    var w := WindowOf(ms, adding, buying, c);
    ViewedEntries(w, x);
    SimulationCounts(ms, adding, buying, c, Mark(x.building, c, j));
  }

  lemma CountDrawn(x: ItemStatus, buying: seq<Buying>, c: int, t: int) returns (j: nat)
    requires TrueItem(x, buying, c) && c <= t <= c + 1000
    ensures j <= |x.building| && LastReached(x.building, t) == (if j == 0 then None else Some(x.building[j - 1]))
    ensures CountBefore(x, j) == Built(buying, x.itemId, t)
    ensures forall ms :: ItemPower(ms, buying, x.itemId, Mark(x.building, c, j)) == ItemPower(ms, buying, x.itemId, t)
  {
    j := ReachedIndex(x.building, t);
    BuiltBetween(x, buying, c, j, t);
  }

  lemma ListDrawn(x: ItemStatus, buying: seq<Buying>, c: int, t: int)
    requires TrueItem(x, buying, c) && c <= t <= c + 1000
    requires forall p :: 0 <= p < |x.building| ==> x.building[p].time <= c + 1000
    ensures ListsComing(Comings(x, t, |x.building|), buying, x.itemId, t, Built(buying, x.itemId, c + 1000))
  {
    ComingsAreListed(x, buying, c, t, |x.building|);
    BuiltBetween(x, buying, c, |x.building|, c + 1000);
    BuiltNeverFalls(buying, x.itemId, t, c + 1000);
  }

  lemma ViewIsTrue(ms: Masters, adding: seq<Adding>, buying: seq<Buying>, c: int, x: ItemStatus)
    requires x.itemId in ms
    requires x == ItemView(WindowOf(ms, adding, buying, c), x.itemId, Bought(buying, x.itemId))
    ensures TrueItem(x, buying, c)
  {
    ViewHasTrueBuilding(ms, adding, buying, c, x.itemId, x.countBought);
  }

  /**
   What the client draws of a genuine item at a time t of the window, whatever the table: the count and power built
   by t, and below it every copy still to come by the window's end, once, in order, with the time left until the
   built count reaches it.
   */
  lemma ClientDrawsTruth(ms: Masters, adding: seq<Adding>, buying: seq<Buying>, c: int, x: ItemStatus, t: int)
    requires x.itemId in ms && c <= t <= c + 1000
    requires x == ItemView(WindowOf(ms, adding, buying, c), x.itemId, Bought(buying, x.itemId))
    ensures var last := LastReached(x.building, t);
            && (if last.Some? then last.value.countBuilt else x.countBuilt) == Built(buying, x.itemId, t)
            && (if last.Some? then last.value.power else x.power) == Big2Exp(ItemPower(ms, buying, x.itemId, t))
    ensures ListsComing(Comings(x, t, |x.building|), buying, x.itemId, t, Built(buying, x.itemId, c + 1000))
  {
    ViewIsTrue(ms, adding, buying, c, x);
    var j := CountDrawn(x, buying, c, t);
    MarkPower(ms, adding, buying, c, x, j);
    ViewedEntries(WindowOf(ms, adding, buying, c), x);
    ListDrawn(x, buying, c, t);
  }

  // ---- In time order a copy is due at its row's time ----------------------------------------------------------------

  /**
   The copies after the n built at t, up to the high-th, each once and in order, with the time left to its row's
   time.
   */
  function Remaining(buying: seq<Buying>, item: int, t: int, high: int): seq<Upcoming>
    decreases high
  {
    if high <= Built(buying, item, t) then []
    else Remaining(buying, item, t, high - 1) + [Upcoming(RowTime(buying, item, high) - t, high)]
  }

  lemma {:induction false} RemainingIs(buying: seq<Buying>, item: int, t: int, high: int, k: nat)
    requires Built(buying, item, t) <= high
    ensures |Remaining(buying, item, t, high)| == high - Built(buying, item, t)
    ensures k < high - Built(buying, item, t) ==> var o := Built(buying, item, t) + 1 + k;
      Remaining(buying, item, t, high)[k] == Upcoming(RowTime(buying, item, o) - t, o)
    decreases high
  {
    if Built(buying, item, t) < high {
      RemainingIs(buying, item, t, high - 1, k);
    }
  }

  lemma DueMeansDated(buying: seq<Buying>, item: int, c: int, t: int, u: Upcoming)
    requires InOrdinalOrder(buying) && InTimeOrderFrom(buying, c) && c <= t && Due(buying, item, t, u) && 1 <= u.ordinal
    ensures RowTime(buying, item, u.ordinal) == t + u.dt
  {
    BuiltAtMostBought(buying, item, t + u.dt);
    BuiltMeansDated(buying, item, u.ordinal, t + u.dt);
    BuiltMeansDated(buying, item, u.ordinal, t + u.dt - 1);
  }

  /** If later copies are dated no earlier, the time left is that to the copy's own row. */
  lemma ClientDrawsRows(buying: seq<Buying>, item: int, c: int, t: int, list: seq<Upcoming>, high: int)
    requires InOrdinalOrder(buying) && InTimeOrderFrom(buying, c) && c <= t
    requires Built(buying, item, t) <= high && ListsComing(list, buying, item, t, high)
    ensures list == Remaining(buying, item, t, high)
  {
    RemainingIs(buying, item, t, high, 0);
    forall k | 0 <= k < |list| ensures list[k] == Remaining(buying, item, t, high)[k] {
      DueMeansDated(buying, item, c, t, list[k]);
      RemainingIs(buying, item, t, high, k);
    }
  }

  // ---- Buttons ------------------------------------------------------------------------------------------------------

  function CalcDisabled(onSale: map<int, int>, item: int, time: int): bool { !(item in onSale && time >= onSale[item]) }

  lemma EnabledIsListed(list: seq<OnSale>, m: map<int, int>, item: int, t: int)
    requires ListsTimes(list, m)
    ensures !CalcDisabled(OnSaleTable(list), item, t) <==> OnSaleBy(list, item, t)
  {
    ListedTimesAre(list, m);
    ListedTime(list, m, item, t);
  }

  lemma StatusEnables(ms: Masters, st: GameStatus, adding: seq<Adding>, buying: seq<Buying>, c: int, item: int, t: int)
    requires IsStatusOf(st, ms, adding, buying, c)
    ensures !CalcDisabled(OnSaleTable(st.onSale), item, t) <==> OnSaleBy(st.onSale, item, t)
  {
    var w := WindowOf(ms, adding, buying, c);
    EnabledIsListed(st.onSale, OnSaleMap(w, Needs(ms, BoughtMap(ms, buying)), Horizon(w)), item, t);
  }

  /**
   While the tables stay as reported, an item's button is enabled at a time of the window exactly if a purchase dated
   then would succeed.
   */
  lemma EnabledMeansBuyable(ms: Masters, s: RoomState, st: GameStatus, c: int, now: int, x: ItemStatus, t: int)
    requires ValidState(ms, s) && NonNegativeIsu(s.adding) && IsStatusOf(st, ms, s.adding, s.buying, c) && 0 <= c
    requires x in st.items && s.time <= now <= t && c <= t <= c + 1000
    ensures !CalcDisabled(OnSaleTable(st.onSale), x.itemId, t)
      <==> Accepts(ms, s, now, BuyItem(x.itemId, x.countBought, t))
  {
    StatusEnables(ms, st, s.adding, s.buying, c, x.itemId, t);
    OnSaleMeansBuyable(ms, s, st, c, now, x, t);
  }

  const BUY_ITEM_DELAY := 1000

  /**
   And the purchase an enabled button sends, dated a second ahead, succeeds as long as it arrives within that second.
   */
  lemma PressedButtonBuys(ms: Masters, s: RoomState, st: GameStatus, c: int, now: int, x: ItemStatus, t: int)
    requires ValidState(ms, s) && NonNegativeIsu(s.adding) && IsStatusOf(st, ms, s.adding, s.buying, c) && 0 <= c
    requires x in st.items && c <= t <= c + 1000 && s.time <= now <= t + 1000
    requires !CalcDisabled(OnSaleTable(st.onSale), x.itemId, t)
    ensures BUY_ITEM_DELAY == 1000 && Accepts(ms, s, now, BuyItem(x.itemId, x.countBought, t + BUY_ITEM_DELAY))
  {
    StatusEnables(ms, st, s.adding, s.buying, c, x.itemId, t);
    ListedMeansAffordable(WindowOf(ms, s.adding, s.buying, c), ms, s, st, c, x, t);
    BalanceNeverFalls(ms, s.adding, s.buying, t, t + BUY_ITEM_DELAY);
  }

  // ---- Incoming statuses --------------------------------------------------------------------------------------------

  /** The client's view of its room. */
  class RoomView {
    var shown: Option<Received>

    constructor ()
      ensures shown == None
    {
      shown := None;
    }

    /** A status older than the one shown is dropped. */
    method ReceiveData(data: Received)
      requires |data.st.schedule| > 0 && (shown.Some? ==> |shown.value.st.schedule| > 0)
      modifies this
      ensures shown == Some(Newer(old(shown), data))
    {
      if shown.None? || data.st.schedule[0].time >= shown.value.st.schedule[0].time {
        shown := Some(data);
      }
    }
  }

  function Newer(shown: Option<Received>, data: Received): Received
    requires |data.st.schedule| > 0 && (shown.Some? ==> |shown.value.st.schedule| > 0)
  {
    if shown.None? || StatusTime(data) >= StatusTime(shown.value) then data else shown.value
  }

  ghost predicate AllScheduled(list: seq<Received>)
  {
    forall k :: 0 <= k < |list| ==> |list[k].st.schedule| > 0
  }

  function ShownAfter(list: seq<Received>): (r: Option<Received>)
    requires forall k :: 0 <= k < |list| ==> |list[k].st.schedule| > 0
    ensures r.Some? ==> |r.value.st.schedule| > 0
  {
    if |list| == 0 then None else Some(Newer(ShownAfter(list[..|list| - 1]), list[|list| - 1]))
  }

  /**
   However statuses arrive, the client shows the latest of those received, and of equally late ones the last to
   arrive.
   */
  lemma {:induction false} ShowsTheLatest(list: seq<Received>, t1: int, t2: int)
    requires |list| > 0 && AllScheduled(list) && forall k :: 0 <= k < |list| ==> InSpan(list[k], t1, t2)
    ensures exists idx :: 0 <= idx < |list| && IsLatest(list, t1, t2, idx) && ShownAfter(list) == Some(list[idx])
  {
    var idx := LatestShown(list, t1, t2);
  }

  lemma {:induction false} LatestShown(list: seq<Received>, t1: int, t2: int) returns (idx: nat)
    requires |list| > 0 && AllScheduled(list) && forall k :: 0 <= k < |list| ==> InSpan(list[k], t1, t2)
    ensures idx < |list| && IsLatest(list, t1, t2, idx) && ShownAfter(list) == Some(list[idx])
  {
    var n := |list| - 1;
    if n == 0 {
      assert ShownAfter(list[..0]) == None;
      idx := 0;
    } else {
      idx := LatestShown(list[..n], t1, t2);
      LatestPushed(list, t1, t2, idx);
      if StatusTime(list[n]) >= StatusTime(list[idx]) {
        idx := n;
      }
    }
  }

  lemma LatestPushed(list: seq<Received>, t1: int, t2: int, idx: nat)
    requires AllScheduled(list) && idx + 1 < |list| && InSpan(list[|list| - 1], t1, t2)
    requires IsLatest(list[..|list| - 1], t1, t2, idx)
    ensures IsLatest(list, t1, t2, if StatusTime(list[|list| - 1]) >= StatusTime(list[idx]) then |list| - 1 else idx)
  {
    var n := |list| - 1;
    forall k | 0 <= k < n ensures list[k] == list[..n][k] {
    }
  }
}
