/** The 1000 ms window after a status time, walked millisecond by millisecond, and its closed forms. */
module Windows {
  import opened Common
  import opened Ledger
  import opened Sums

  // The balance grows by the power in force, then the rows dated at that millisecond take effect.  calcStatus and both
  // validators walk such a window.

  /** One point of a schedule, before rounding. */
  datatype Point = Point(time: int, milliIsu: int, totalPower: int)

  /** One completed batch of an item's builds, before rounding. */
  datatype Batch = Batch(time: int, countBuilt: int, power: int)

  /** What is known at `start` and which rows are dated after it. */
  datatype Window = Window(
    ms: Masters, start: int, base: int, power: int,
    itemPower: map<int, int>, itemBuilt: map<int, nat>,
    adds: map<int, int>, buys: map<int, seq<Buying>>)

  function BuysAt(w: Window, t: int): seq<Buying> { GetOr(w.buys, t, []) }
  predicate EventAt(w: Window, t: int) { t in w.adds || t in w.buys }
  predicate BuildsAt(w: Window, item: int, t: int) { exists b :: b in BuysAt(w, t) && b.item == item }

  function PowerNow(w: Window, t: int): int
    decreases t - w.start
  {
    if t <= w.start then w.power else PowerNow(w, t - 1) + Sum(BuysAt(w, t), PowerRow(w.ms))
  }

  function BalanceNow(w: Window, t: int): int
    decreases t - w.start
  {
    if t <= w.start then w.base
    else BalanceNow(w, t - 1) + PowerNow(w, t - 1) + 1000 * GetOr(w.adds, t, 0)
  }

  function ItemPowerNow(w: Window, item: int, t: int): int
    decreases t - w.start
  {
    if t <= w.start then GetOr(w.itemPower, item, 0)
    else ItemPowerNow(w, item, t - 1) + Sum(BuysAt(w, t), ItemPowerRow(w.ms, item))
  }

  function BuiltNow(w: Window, item: int, t: int): int
    decreases t - w.start
  {
    if t <= w.start then GetOr<int, nat>(w.itemBuilt, item, 0)
    else BuiltNow(w, item, t - 1) + Sum(BuysAt(w, t), OfItem(item))
  }

  function PointAt(w: Window, t: int): Point { Point(t, BalanceNow(w, t), PowerNow(w, t)) }
  function BatchAt(w: Window, item: int, t: int): Batch { Batch(t, BuiltNow(w, item, t), ItemPowerNow(w, item, t)) }

  function ScheduleTo(w: Window, t: int): (s: seq<Point>)
    ensures |s| > 0 && s[0] == Point(w.start, w.base, w.power)
    decreases t - w.start
  {
    if t <= w.start then [Point(w.start, w.base, w.power)]
    else ScheduleTo(w, t - 1) + (if EventAt(w, t) then [PointAt(w, t)] else [])
  }

  function BatchesTo(w: Window, item: int, t: int): seq<Batch>
    decreases t - w.start
  {
    if t <= w.start then []
    else BatchesTo(w, item, t - 1) + (if BuildsAt(w, item, t) then [BatchAt(w, item, t)] else [])
  }

  /** When the balance first covers `need`: 0 if it does at the start, else the first such millisecond. */
  function OnSaleTo(w: Window, need: int, t: int): Option<int>
    decreases t - w.start
  {
    if t <= w.start then (if need <= w.base then Some(0) else None)
    else
      var before := OnSaleTo(w, need, t - 1);
      if before.Some? then before else if need <= BalanceNow(w, t) then Some(t) else None
  }

  function Horizon(w: Window): int { w.start + 1000 }

  // ---- Steps of the window -------------------------------------------------------------------

  lemma {:induction false} QuietStretch(w: Window, t: int, u: int)
    requires w.start <= t <= u
    requires forall s :: t < s <= u ==> !EventAt(w, s)
    ensures BalanceNow(w, u) == BalanceNow(w, t) + PowerNow(w, t) * (u - t)
    ensures PowerNow(w, u) == PowerNow(w, t)
    ensures forall item :: ItemPowerNow(w, item, u) == ItemPowerNow(w, item, t)
    ensures forall item :: BuiltNow(w, item, u) == BuiltNow(w, item, t)
    ensures ScheduleTo(w, u) == ScheduleTo(w, t)
    ensures forall item :: BatchesTo(w, item, u) == BatchesTo(w, item, t)
    decreases u - t
  {
    if t < u {
      QuietStretch(w, t, u - 1);
      assert !EventAt(w, u);
      assert BuysAt(w, u) == [];
      var p := PowerNow(w, t);
      assert p * (u - t) == p * (u - 1 - t) + p;
    }
  }

  /** Facts about every row the window can still apply. */
  ghost predicate Growing(w: Window)
  {
    && 0 <= w.power
    && forall t :: t in w.adds && w.start < t ==> 0 <= w.adds[t]
  }

  lemma {:induction false} PowerNowGrows(w: Window, t: int, u: int)
    requires w.start <= t <= u
    ensures PowerNow(w, t) <= PowerNow(w, u)
    decreases u - t
  {
    if t < u {
      PowerNowGrows(w, t, u - 1);
      SumNonNegative(BuysAt(w, u), PowerRow(w.ms));
    }
  }

  lemma {:induction false} BalanceNowGrows(w: Window, t: int, u: int)
    requires Growing(w) && w.start <= t <= u
    ensures BalanceNow(w, t) <= BalanceNow(w, u)
    decreases u - t
  {
    if t < u {
      BalanceNowGrows(w, t, u - 1);
      PowerNowGrows(w, w.start, u - 1);
    }
  }

  // ---- What the lists mean -------------------------------------------------------------------

  /**
   The schedule is strictly increasing in time, starts at the window's start, and holds exactly the event times with
   their exact values.
   */
  lemma {:induction false} ScheduleIsExact(w: Window, t: int)
    requires w.start <= t
    ensures forall k :: 0 <= k < |ScheduleTo(w, t)| ==>
      w.start <= ScheduleTo(w, t)[k].time <= t && ScheduleTo(w, t)[k] == PointAt(w, ScheduleTo(w, t)[k].time)
    ensures forall k :: 0 < k < |ScheduleTo(w, t)| ==>
      ScheduleTo(w, t)[k - 1].time < ScheduleTo(w, t)[k].time && EventAt(w, ScheduleTo(w, t)[k].time)
    ensures forall s :: w.start < s <= t && EventAt(w, s) ==> PointAt(w, s) in ScheduleTo(w, t)
    decreases t - w.start
  {
    if w.start < t {
      ScheduleIsExact(w, t - 1);
      var before := ScheduleTo(w, t - 1);
      forall s | w.start < s <= t && EventAt(w, s) ensures PointAt(w, s) in ScheduleTo(w, t) {
        if s < t {
          assert PointAt(w, s) in before;
        }
      }
    }
  }

  /** The last schedule point at or before t, extended with its power, gives the balance and the power at t. */
  lemma ScheduleExtrapolates(w: Window, t: int, k: nat)
    requires w.start <= t <= Horizon(w)
    requires k < |ScheduleTo(w, Horizon(w))|
    requires ScheduleTo(w, Horizon(w))[k].time <= t
    requires k + 1 < |ScheduleTo(w, Horizon(w))| ==> t < ScheduleTo(w, Horizon(w))[k + 1].time
    ensures BalanceNow(w, t) == ScheduleTo(w, Horizon(w))[k].milliIsu
      + ScheduleTo(w, Horizon(w))[k].totalPower * (t - ScheduleTo(w, Horizon(w))[k].time)
    ensures PowerNow(w, t) == ScheduleTo(w, Horizon(w))[k].totalPower
  {
    var sch := ScheduleTo(w, Horizon(w));
    ScheduleIsExact(w, Horizon(w));
    forall s | sch[k].time < s <= t ensures !EventAt(w, s) {
      if EventAt(w, s) {
        var j :| 0 <= j < |sch| && sch[j] == PointAt(w, s);
        if j <= k {
          TimesIncrease(sch, j, k);
        } else {
          TimesIncrease(sch, k + 1, j);
        }
      }
    }
    QuietStretch(w, sch[k].time, t);
  }

  lemma {:induction false} TimesIncrease(s: seq<Point>, j: nat, k: nat)
    requires j <= k < |s|
    requires forall i :: 0 < i < |s| ==> s[i - 1].time < s[i].time
    ensures s[j].time <= s[k].time && (j < k ==> s[j].time < s[k].time)
    decreases k - j
  {
    if j < k {
      TimesIncrease(s, j, k - 1);
    }
  }

  /**
   Building batches have strictly increasing times and carry the built count and the item's power at those times;
   every build time is listed.
   */
  lemma {:induction false} BatchesAreExact(w: Window, item: int, t: int)
    requires w.start <= t
    ensures forall k :: 0 <= k < |BatchesTo(w, item, t)| ==>
      w.start < BatchesTo(w, item, t)[k].time <= t && BuildsAt(w, item, BatchesTo(w, item, t)[k].time)
      && BatchesTo(w, item, t)[k] == BatchAt(w, item, BatchesTo(w, item, t)[k].time)
    ensures forall j, k :: 0 <= j < k < |BatchesTo(w, item, t)| ==>
      BatchesTo(w, item, t)[j].time < BatchesTo(w, item, t)[k].time
    ensures forall s :: w.start < s <= t && BuildsAt(w, item, s) ==> BatchAt(w, item, s) in BatchesTo(w, item, t)
    decreases t - w.start
  {
    if w.start < t {
      BatchesAreExact(w, item, t - 1);
      var before := BatchesTo(w, item, t - 1);
      forall s | w.start < s <= t && BuildsAt(w, item, s) ensures BatchAt(w, item, s) in BatchesTo(w, item, t) {
        if s < t {
          assert BatchAt(w, item, s) in before;
        }
      }
    }
  }

  /**
   On-sale times are least: the item is affordable from the reported time on, and at no earlier time of the window.
   */
  lemma {:induction false} OnSaleIsFirst(w: Window, need: int, t: int)
    requires w.start <= t
    ensures OnSaleTo(w, need, t) == Some(0) <== need <= w.base
    ensures OnSaleTo(w, need, t).None? <==> forall s :: w.start <= s <= t ==> BalanceNow(w, s) < need
    ensures OnSaleTo(w, need, t).Some? && w.base < need ==>
      var r := OnSaleTo(w, need, t).value;
      w.start < r <= t && need <= BalanceNow(w, r) && forall s :: w.start <= s < r ==> BalanceNow(w, s) < need
    decreases t - w.start
  {
    if w.start < t {
      OnSaleIsFirst(w, need, t - 1);
    } else {
      assert t == w.start && BalanceNow(w, t) == w.base;
      assert OnSaleTo(w, need, t).None? <==> BalanceNow(w, t) < need;
    }
  }

  // ---- The window of a room's tables ------------------------------------------------------------

  /** Rows dated after c, as the per-time dictionaries the simulation looks up. */
  function FutureAdds(adding: seq<Adding>, c: int): map<int, int>
  {
    if |adding| == 0 then map[]
    else
      var a := adding[|adding| - 1];
      var m := FutureAdds(adding[..|adding| - 1], c);
      if a.time <= c then m else m[a.time := a.isu]
  }

  function FutureBuys(buying: seq<Buying>, c: int): map<int, seq<Buying>>
  {
    if |buying| == 0 then map[]
    else
      var b := buying[|buying| - 1];
      var m := FutureBuys(buying[..|buying| - 1], c);
      if b.time <= c then m else m[b.time := GetOr(m, b.time, []) + [b]]
  }

  function WindowOf(ms: Masters, adding: seq<Adding>, buying: seq<Buying>, c: int): Window
  {
    Window(ms, c, Balance(ms, adding, buying, c), TotalPower(ms, buying, c),
           map i | i in ms :: ItemPower(ms, buying, i, c), map i | i in ms :: Built(buying, i, c),
           FutureAdds(adding, c), FutureBuys(buying, c))
  }

  function DatedAt(t: int): Buying -> bool { (b: Buying) => b.time == t }

  lemma {:induction false} FutureAddsAt(adding: seq<Adding>, c: int, t: int)
    requires UniqueTimes(adding)
    ensures t in FutureAdds(adding, c) <==> c < t && exists k :: 0 <= k < |adding| && adding[k].time == t
    ensures c < t ==> GetOr(FutureAdds(adding, c), t, 0) == Sum(adding, IsuAt(t))
    ensures forall k :: 0 <= k < |adding| && c < adding[k].time ==>
      adding[k].time in FutureAdds(adding, c) && FutureAdds(adding, c)[adding[k].time] == adding[k].isu
  {
    if |adding| > 0 {
      var n := |adding| - 1;
      assert UniqueTimes(adding[..n]);
      FutureAddsAt(adding[..n], c, t);
      if exists k :: 0 <= k < n && adding[..n][k].time == t {
        var k :| 0 <= k < n && adding[..n][k].time == t;
        assert adding[k].time == t;
      }
    }
  }

  lemma {:induction false} FutureBuysAt(buying: seq<Buying>, c: int, t: int)
    ensures t in FutureBuys(buying, c) <==> c < t && exists k :: 0 <= k < |buying| && buying[k].time == t
    ensures c < t ==> GetOr(FutureBuys(buying, c), t, []) == Where(buying, DatedAt(t))
  {
    if |buying| > 0 {
      var n := |buying| - 1;
      FutureBuysAt(buying[..n], c, t);
      if exists k :: 0 <= k < n && buying[..n][k].time == t {
        var k :| 0 <= k < n && buying[..n][k].time == t;
        assert buying[k].time == t;
      }
    }
  }

  lemma TotalsStep(ms: Masters, buying: seq<Buying>, item: int, t: int)
    ensures TotalPower(ms, buying, t) == TotalPower(ms, buying, t - 1) + Sum(Where(buying, DatedAt(t)), PowerRow(ms))
    ensures ItemPower(ms, buying, item, t)
      == ItemPower(ms, buying, item, t - 1) + Sum(Where(buying, DatedAt(t)), ItemPowerRow(ms, item))
    ensures Built(buying, item, t) == Built(buying, item, t - 1) + Sum(Where(buying, DatedAt(t)), OfItem(item))
  {
    SumLinear(buying, PowerBy(ms, t), PowerBy(ms, t - 1), 1, PowerAt(ms, t));
    SumWhere(buying, DatedAt(t), PowerRow(ms), PowerAt(ms, t));
    SumLinear(buying, ItemPowerBy(ms, item, t), ItemPowerBy(ms, item, t - 1), 1, ItemPowerAt(ms, item, t));
    SumWhere(buying, DatedAt(t), ItemPowerRow(ms, item), ItemPowerAt(ms, item, t));
    SumLinear(buying, BuiltBy(item, t), BuiltBy(item, t - 1), 1, BuiltAt(item, t));
    SumWhere(buying, DatedAt(t), OfItem(item), BuiltAt(item, t));
  }

  lemma BalanceStep(ms: Masters, adding: seq<Adding>, buying: seq<Buying>, t: int)
    ensures Balance(ms, adding, buying, t)
         == Balance(ms, adding, buying, t - 1) + TotalPower(ms, buying, t - 1) + 1000 * Sum(adding, IsuAt(t))
  {
    SumLinear(adding, IsuBy(t), IsuBy(t - 1), 1, IsuAt(t));
    forall i | 0 <= i < |buying|
      ensures Gain(ms, t)(buying[i]) == Gain(ms, t - 1)(buying[i]) + 1 * PowerBy(ms, t - 1)(buying[i])
    {
      if buying[i].time <= t - 1 {
        GainStep(Power(ms, buying[i].item, buying[i].ordinal), t - 1, t, buying[i].time);
      }
    }
    SumLinear(buying, Gain(ms, t), Gain(ms, t - 1), 1, PowerBy(ms, t - 1));
  }

  /** The millisecond simulation from the state at c computes P(t), each item's power and N_i(t) at every t. */
  lemma {:induction false} SimulationCounts(ms: Masters, adding: seq<Adding>, buying: seq<Buying>, c: int, t: int)
    requires c <= t
    ensures PowerNow(WindowOf(ms, adding, buying, c), t) == TotalPower(ms, buying, t)
    ensures forall i :: i in ms ==> ItemPowerNow(WindowOf(ms, adding, buying, c), i, t) == ItemPower(ms, buying, i, t)
    ensures forall i :: i in ms ==> BuiltNow(WindowOf(ms, adding, buying, c), i, t) == Built(buying, i, t)
    decreases t - c
  {
    if c < t {
      SimulationCounts(ms, adding, buying, c, t - 1);
      FutureBuysAt(buying, c, t);
      forall i { TotalsStep(ms, buying, i, t); }
      TotalsStep(ms, buying, 0, t);
    }
  }

  lemma {:induction false} SimulationBalance(ms: Masters, adding: seq<Adding>, buying: seq<Buying>, c: int, t: int)
    requires UniqueTimes(adding) && c <= t
    ensures BalanceNow(WindowOf(ms, adding, buying, c), t) == Balance(ms, adding, buying, t)
    decreases t - c
  {
    if c < t {
      SimulationBalance(ms, adding, buying, c, t - 1);
      SimulationCounts(ms, adding, buying, c, t - 1);
      FutureAddsAt(adding, c, t);
      BalanceStep(ms, adding, buying, t);
    }
  }

  /**
   At every step the simulation's accumulators are the ledger's closed forms: B(t), P(t), each item's power and
   N_i(t).
   */
  lemma SimulationIsLedger(ms: Masters, adding: seq<Adding>, buying: seq<Buying>, c: int, t: int)
    requires UniqueTimes(adding) && c <= t
    ensures BalanceNow(WindowOf(ms, adding, buying, c), t) == Balance(ms, adding, buying, t)
    ensures PowerNow(WindowOf(ms, adding, buying, c), t) == TotalPower(ms, buying, t)
    ensures forall i :: i in ms ==> ItemPowerNow(WindowOf(ms, adding, buying, c), i, t) == ItemPower(ms, buying, i, t)
    ensures forall i :: i in ms ==> BuiltNow(WindowOf(ms, adding, buying, c), i, t) == Built(buying, i, t)
  {
    SimulationBalance(ms, adding, buying, c, t);
    SimulationCounts(ms, adding, buying, c, t);
  }

  // ---- Windows that differ only in their opening balance and in row order ------------------------------

  /** The same rows after the same start; only the opening balances may differ. */
  ghost predicate Alike(v: Window, w: Window)
  {
    && v.ms == w.ms && v.start == w.start && v.power == w.power && v.itemPower == w.itemPower
      && v.itemBuilt == w.itemBuilt
    && (forall t :: v.start < t ==> (t in v.adds <==> t in w.adds) && GetOr(v.adds, t, 0) == GetOr(w.adds, t, 0))
    && (forall t :: v.start < t ==> (t in v.buys <==> t in w.buys) && multiset(BuysAt(v, t)) == multiset(BuysAt(w, t)))
  }

  lemma AlikeAt(v: Window, w: Window, t: int)
    requires Alike(v, w) && v.start < t
    ensures EventAt(v, t) == EventAt(w, t)
    ensures forall i :: BuildsAt(v, i, t) == BuildsAt(w, i, t)
    ensures Sum(BuysAt(v, t), PowerRow(v.ms)) == Sum(BuysAt(w, t), PowerRow(v.ms))
    ensures forall i :: Sum(BuysAt(v, t), ItemPowerRow(v.ms, i)) == Sum(BuysAt(w, t), ItemPowerRow(v.ms, i))
    ensures forall i :: Sum(BuysAt(v, t), OfItem(i)) == Sum(BuysAt(w, t), OfItem(i))
  {
    var x, y := BuysAt(v, t), BuysAt(w, t);
    SumOrderFree(x, y, PowerRow(v.ms));
    forall i ensures Sum(x, ItemPowerRow(v.ms, i)) == Sum(y, ItemPowerRow(v.ms, i)) {
      SumOrderFree(x, y, ItemPowerRow(v.ms, i));
    }
    forall i ensures Sum(x, OfItem(i)) == Sum(y, OfItem(i)) {
      SumOrderFree(x, y, OfItem(i));
    }
    forall b ensures b in x <==> b in y {
      assert b in multiset(x) <==> b in multiset(y);
    }
  }

  /** Alike windows evolve alike: equal powers, counts, events and building batches, and balances a constant apart. */
  lemma {:induction false} AlikeWindows(v: Window, w: Window, t: int)
    requires Alike(v, w) && v.start <= t
    ensures PowerNow(v, t) == PowerNow(w, t)
    ensures BalanceNow(v, t) - v.base == BalanceNow(w, t) - w.base
    ensures forall i :: ItemPowerNow(v, i, t) == ItemPowerNow(w, i, t) && BuiltNow(v, i, t) == BuiltNow(w, i, t)
    ensures forall i :: BatchesTo(v, i, t) == BatchesTo(w, i, t)
    ensures |ScheduleTo(v, t)| == |ScheduleTo(w, t)|
    ensures forall k :: 0 <= k < |ScheduleTo(v, t)| ==>
      ScheduleTo(w, t)[k]
        == Point(ScheduleTo(v, t)[k].time, ScheduleTo(v, t)[k].milliIsu - v.base + w.base,
          ScheduleTo(v, t)[k].totalPower)
    decreases t - v.start
  {
    if v.start < t {
      AlikeWindows(v, w, t - 1);
      AlikeAt(v, w, t);
      forall i ensures ItemPowerNow(v, i, t) == ItemPowerNow(w, i, t) && BuiltNow(v, i, t) == BuiltNow(w, i, t) {
      }
      forall i ensures BatchesTo(v, i, t) == BatchesTo(w, i, t) {
        assert BuildsAt(v, i, t) == BuildsAt(w, i, t) && BatchAt(v, i, t) == BatchAt(w, i, t);
      }
    } else {
      forall i ensures ItemPowerNow(v, i, t) == ItemPowerNow(w, i, t) && BuiltNow(v, i, t) == BuiltNow(w, i, t) {
      }
    }
  }

  /** A window with a higher balance throughout has every item on sale no later. */
  lemma {:induction false} OnSaleIsAntitone(v: Window, w: Window, need: int, t: int)
    requires v.start == w.start && v.start <= t
    requires forall s :: v.start <= s <= t ==> BalanceNow(v, s) <= BalanceNow(w, s)
    ensures OnSaleTo(v, need, t).Some? ==> OnSaleTo(w, need, t).Some?
    ensures OnSaleTo(v, need, t).Some? && 0 <= v.start ==> OnSaleTo(w, need, t).value <= OnSaleTo(v, need, t).value
    ensures OnSaleTo(v, need, t) == Some(0) && 0 <= v.start ==> OnSaleTo(w, need, t) == Some(0)
    decreases t - v.start
  {
    assert BalanceNow(v, v.start) == v.base && BalanceNow(w, w.start) == w.base;
    OnSaleIsFirst(w, need, t);
    if v.start < t {
      OnSaleIsAntitone(v, w, need, t - 1);
      OnSaleIsFirst(w, need, t - 1);
    }
  }
}
