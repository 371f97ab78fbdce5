/** The format every received status must have, and that every computed status has it. */
module Format {
  import opened Common
  import opened Exponents
  import opened Ledger
  import opened Rooms
  import opened Status
  import opened Sums
  import opened Windows

  ghost predicate ScheduleOk(s: seq<ScheduleEntry>)
  {
    && |s| > 0
    && forall i :: 0 < i < |s| ==>
         s[i - 1].time < s[i].time && !s[i].milliIsu.Less(s[i - 1].milliIsu)
           && !s[i].totalPower.Less(s[i - 1].totalPower)
  }

  ghost predicate ItemsOk(ms: Masters, items: seq<ItemStatus>)
  {
    && |items| == |ms|
    && (forall i :: 0 <= i < |items| ==> items[i].itemId in ms && ItemOk(items[i]))
    && (forall i, j :: 0 <= i < j < |items| ==> items[i].itemId != items[j].itemId)
  }

  predicate ItemOk(x: ItemStatus)
  {
    x.countBuilt <= x.countBought && (x.countBuilt == 0 ==> x.power == Exponential(0, 0))
  }

  ghost predicate FormatOk(ms: Masters, st: GameStatus)
  {
    && ScheduleOk(st.schedule) && 0 < st.time && ItemsOk(ms, st.items)
    && (forall k :: 0 <= k < |st.adding| ==> st.schedule[0].time < st.adding[k].time)
    && (forall k :: 0 <= k < |st.onSale| ==>
          st.onSale[k].itemId in ms && (st.onSale[k].time <= 0 || st.schedule[0].time < st.onSale[k].time))
  }

  method ValidateSchedule(s: seq<ScheduleEntry>) returns (ok: bool)
    requires |s| > 0
    ensures ok <==> ScheduleOk(s)
  {
    for i := 0 to |s| - 1
      invariant ScheduleOk(s[..i + 1])
    {
      var a, b := s[i], s[i + 1];
      if a.time > b.time {
        return false;
      }
      if a.time == b.time {
        return false;
      }
      if b.milliIsu.Less(a.milliIsu) {
        return false;
      }
      if b.totalPower.Less(a.totalPower) {
        return false;
      }
    }
    assert s[..|s|] == s;
    return true;
  }

  method ValidateItems(ms: Masters, items: seq<ItemStatus>) returns (ok: bool)
    ensures ok <==> ItemsOk(ms, items)
  {
    if |items| != |ms| {
      return false;
    }
    var itemChecked: set<int> := {};
    for k := 0 to |items|
      invariant forall i :: i in itemChecked <==> exists j :: 0 <= j < k && items[j].itemId == i
      invariant forall i :: 0 <= i < k ==> items[i].itemId in ms && ItemOk(items[i])
      invariant forall i, j :: 0 <= i < j < k ==> items[i].itemId != items[j].itemId
    {
      var item := items[k];
      if item.itemId !in ms {
        return false;
      }
      if item.itemId in itemChecked {
        return false;
      }
      itemChecked := itemChecked + {item.itemId};
      if item.countBought < item.countBuilt {
        return false;
      }
      if item.countBuilt == 0 {
        if !(item.power.exponent == 0 && item.power.mantissa == 0) {
          return false;
        }
      }
    }
    return true;
  }

  method ValidateGameStatusFormat(ms: Masters, st: GameStatus) returns (ok: bool)
    ensures ok <==> FormatOk(ms, st)
  {
    if |st.schedule| == 0 {
      return false;
    }
    if st.time <= 0 {
      return false;
    }
    var cTime := st.schedule[0].time;
    ok := ValidateSchedule(st.schedule);
    if !ok {
      return;
    }
    ok := ValidateItems(ms, st.items);
    if !ok {
      return;
    }
    for k := 0 to |st.adding|
      invariant forall j :: 0 <= j < k ==> cTime < st.adding[j].time
    {
      if st.adding[k].time < cTime {
        return false;
      }
      if st.adding[k].time == cTime {
        return false;
      }
    }
    for k := 0 to |st.onSale|
      invariant forall j :: 0 <= j < k ==>
        st.onSale[j].itemId in ms && (st.onSale[j].time <= 0 || cTime < st.onSale[j].time)
    {
      var o := st.onSale[k];
      if o.itemId !in ms {
        return false;
      }
      if 0 < o.time && o.time < cTime {
        return false;
      }
      if 0 < o.time && o.time == cTime {
        return false;
      }
    }
    return true;
  }

  // ---- The format, written out --------------------------------------------------------------------------------

  /** The order of notations: by exponent, then by mantissa. */
  predicate NotAbove(x: Exponential, y: Exponential)
  {
    x.exponent < y.exponent || (x.exponent == y.exponent && x.mantissa <= y.mantissa)
  }

  /**
   A status has the format exactly if its schedule has an entry, times rise and neither balance nor power falls; its
   stamp is positive; it lists each item of the game once, building no more than was bought, and without power as long
   as nothing is built; adds are later than its time; and on-sale times are of items of the game, and later too unless
   they are not positive.
   */
  lemma FormatMeans(ms: Masters, st: GameStatus)
    ensures FormatOk(ms, st) <==>
      && |st.schedule| > 0 && 0 < st.time && |st.items| == |ms|
      && (forall k :: 0 < k < |st.schedule| ==>
        && st.schedule[k - 1].time < st.schedule[k].time
        && NotAbove(st.schedule[k - 1].milliIsu, st.schedule[k].milliIsu)
        && NotAbove(st.schedule[k - 1].totalPower, st.schedule[k].totalPower))
      && (forall j, k :: 0 <= j < k < |st.items| ==> st.items[j].itemId != st.items[k].itemId)
      && (forall x :: x in st.items ==>
        && x.itemId in ms && x.countBuilt <= x.countBought
        && (x.countBuilt == 0 ==> x.power.mantissa == 0 && x.power.exponent == 0))
      && (forall a :: a in st.adding ==> st.schedule[0].time < a.time)
      && (forall o :: o in st.onSale ==> o.itemId in ms && (o.time <= 0 || st.schedule[0].time < o.time))
  {
  }

  // ---- What a falling schedule is -----------------------------------------------------------------------------

  /** The schedule shows the numbers, rounded to 15 digits. */
  predicate ShowsNumbers(s: seq<ScheduleEntry>, milliIsu: seq<nat>, totalPower: seq<nat>)
  {
    && |s| == |milliIsu| == |totalPower|
    && forall i :: 0 <= i < |s| ==> s[i].milliIsu == Big2Exp(milliIsu[i]) && s[i].totalPower == Big2Exp(totalPower[i])
  }

  /**
   A schedule of rounded balances and powers has the right form exactly if its times rise and no balance and no power
   is less than the one before it, unless both round to the same.
   */
  lemma RoundedScheduleForm(s: seq<ScheduleEntry>, milliIsu: seq<nat>, totalPower: seq<nat>)
    requires ShowsNumbers(s, milliIsu, totalPower)
    ensures ScheduleOk(s) <==>
      && |s| > 0
      && forall i :: 0 < i < |s| ==>
        && s[i - 1].time < s[i].time
        && (milliIsu[i - 1] <= milliIsu[i] || Big2Exp(milliIsu[i - 1]) == Big2Exp(milliIsu[i]))
        && (totalPower[i - 1] <= totalPower[i] || Big2Exp(totalPower[i - 1]) == Big2Exp(totalPower[i]))
  {
    hide Big2Exp;
    forall i | 0 < i < |s|
      ensures s[i].milliIsu.Less(s[i - 1].milliIsu)
        <==> milliIsu[i] < milliIsu[i - 1] && Big2Exp(milliIsu[i]) != Big2Exp(milliIsu[i - 1])
      ensures s[i].totalPower.Less(s[i - 1].totalPower)
        <==> totalPower[i] < totalPower[i - 1] && Big2Exp(totalPower[i]) != Big2Exp(totalPower[i - 1])
    {
      Big2ExpOrder(milliIsu[i], milliIsu[i - 1]);
      Big2ExpOrder(totalPower[i], totalPower[i - 1]);
    }
  }

  /** A status whose balance or power falls from one entry to the next, and shows it, is refused. */
  lemma FallingIsRefused(ms: Masters, st: GameStatus, i: nat, n: nat, m: nat)
    requires 0 < i < |st.schedule| && m < n && Big2Exp(m) != Big2Exp(n)
    requires (st.schedule[i - 1].milliIsu == Big2Exp(n) && st.schedule[i].milliIsu == Big2Exp(m))
      || (st.schedule[i - 1].totalPower == Big2Exp(n) && st.schedule[i].totalPower == Big2Exp(m))
    ensures !FormatOk(ms, st)
  {
    hide Big2Exp;
    Big2ExpOrder(m, n);
  }

  // ---- Every computed status passes ---------------------------------------------------------------------------

  lemma {:induction false} UnbuiltHasNoPower(ms: Masters, buying: seq<Buying>, item: int, c: int)
    ensures Built(buying, item, c) == 0 ==> ItemPower(ms, buying, item, c) == 0
    ensures Built(buying, item, c) <= Bought(buying, item)
  {
    if |buying| > 0 {
      UnbuiltHasNoPower(ms, buying[..|buying| - 1], item, c);
    }
  }

  lemma RoundedStep(w: Window, a: int, b: int)
    requires Growing(w) && 0 <= w.base && w.start <= a <= b
    ensures !Big2Exp(BalanceNow(w, b)).Less(Big2Exp(BalanceNow(w, a)))
    ensures !Big2Exp(PowerNow(w, b)).Less(Big2Exp(PowerNow(w, a)))
  {
    BalanceNowGrows(w, w.start, a);
    BalanceNowGrows(w, a, b);
    PowerNowGrows(w, w.start, a);
    PowerNowGrows(w, a, b);
    Big2ExpIsMonotone(BalanceNow(w, a), BalanceNow(w, b));
    Big2ExpIsMonotone(PowerNow(w, a), PowerNow(w, b));
  }

  lemma RoundedScheduleOk(w: Window, t: int)
    requires Growing(w) && 0 <= w.base && w.start <= t
    ensures ScheduleOk(RoundSchedule(ScheduleTo(w, t)))
  {
    var ps := ScheduleTo(w, t);
    ScheduleIsExact(w, t);
    forall i | 0 < i < |ps|
      ensures ps[i - 1].time < ps[i].time && !RoundPoint(ps[i]).milliIsu.Less(RoundPoint(ps[i - 1]).milliIsu)
        && !RoundPoint(ps[i]).totalPower.Less(RoundPoint(ps[i - 1]).totalPower)
    {
      RoundedStep(w, ps[i - 1].time, ps[i].time);
    }
  }

  lemma WindowGrows(ms: Masters, adding: seq<Adding>, buying: seq<Buying>, c: int)
    requires UniqueTimes(adding) && NonNegativeIsu(adding)
    ensures Growing(WindowOf(ms, adding, buying, c))
  {
    BalanceNeverFalls(ms, adding, buying, c, c);
    forall t | t in FutureAdds(adding, c) ensures 0 <= FutureAdds(adding, c)[t] {
      FutureAddsAt(adding, c, t);
      var k :| 0 <= k < |adding| && adding[k].time == t;
      assert FutureAdds(adding, c)[adding[k].time] == adding[k].isu;
    }
  }

  lemma ListedSize(ms: Masters, items: seq<ItemStatus>)
    requires forall j, k :: 0 <= j < k < |items| ==> items[j].itemId != items[k].itemId
    requires forall k :: 0 <= k < |items| ==> items[k].itemId in ms
    requires forall i :: i in ms ==> exists k :: 0 <= k < |items| && items[k].itemId == i
    ensures |items| == |ms|
  {
    var ids := seq(|items|, k requires 0 <= k < |items| => items[k].itemId);
    forall i ensures i in ms.Keys <==> i in ids {
      if i in ms {
        var k :| 0 <= k < |items| && items[k].itemId == i;
        assert ids[k] == i;
      }
    }
    assert forall x :: x in ms.Keys <==> x in ids;
    IdsSize(ids, ms.Keys);
  }

  lemma ViewedItemOk(ms: Masters, buying: seq<Buying>, w: Window, c: int, item: int, bought: nat)
    requires GetOr(w.itemBuilt, item, 0) == Built(buying, item, c)
      && GetOr(w.itemPower, item, 0) == ItemPower(ms, buying, item, c)
    requires bought == Bought(buying, item)
    ensures ItemOk(ItemView(w, item, bought))
  {
    UnbuiltHasNoPower(ms, buying, item, c);
  }

  lemma ListedItemsOk(ms: Masters, buying: seq<Buying>, w: Window, c: int, items: seq<ItemStatus>)
    requires ListsItems(items, w, BoughtMap(ms, buying)) && w.ms == ms
    requires forall i :: i in ms ==>
      GetOr(w.itemBuilt, i, 0) == Built(buying, i, c) && GetOr(w.itemPower, i, 0) == ItemPower(ms, buying, i, c)
    ensures ItemsOk(ms, items)
  {
    hide ItemOk;
    ListedSize(ms, items);
    forall k | 0 <= k < |items| ensures ItemOk(items[k]) {
      ViewedItemOk(ms, buying, w, c, items[k].itemId, Bought(buying, items[k].itemId));
    }
  }

  lemma IdsSize(ids: seq<int>, s: set<int>)
    requires Distinct(ids) && forall i :: i in s <==> i in ids
    ensures |ids| == |s|
  {
    forall x ensures x in s <==> x in ids {
    }
    DistinctSize(ids, s);
  }

  /**
   A status computed from a room whose balance is not negative, stamped with a positive time, passes the format
   check.
   */
  lemma ComputedStatusPassesFormat(ms: Masters, adding: seq<Adding>, buying: seq<Buying>, c: int, st: GameStatus)
    requires ValidState(ms, RoomState(c, adding, buying)) && NonNegativeIsu(adding)
    requires IsStatusOf(st, ms, adding, buying, c) && 0 < st.time
    requires 0 <= Balance(ms, adding, buying, c)
    ensures FormatOk(ms, st)
  {
    hide ItemsOk, ListsItems, ListsTimes, Growing;
    var w := WindowOf(ms, adding, buying, c);
    WindowGrows(ms, adding, buying, c);
    RoundedScheduleOk(w, Horizon(w));
    assert st.schedule[0] == RoundPoint(ScheduleTo(w, Horizon(w))[0]);
    ListedItemsOk(ms, buying, w, c, st.items);
    forall k | 0 <= k < |st.adding| ensures c < st.adding[k].time {
      FutureAddsAt(adding, c, st.adding[k].time);
    }
    ListedTimesOk(w, Needs(ms, BoughtMap(ms, buying)), st.onSale);
  }

  lemma ListedTimesOk(w: Window, needs: map<int, int>, list: seq<OnSale>)
    requires ListsTimes(list, OnSaleMap(w, needs, Horizon(w))) && needs.Keys <= w.ms.Keys
    ensures forall k :: 0 <= k < |list| ==> list[k].itemId in w.ms && (list[k].time <= 0 || w.start < list[k].time)
  {
    forall k | 0 <= k < |list| ensures list[k].itemId in w.ms && (list[k].time <= 0 || w.start < list[k].time) {
      OnSaleIsFirst(w, needs[list[k].itemId], Horizon(w));
    }
  }
}
