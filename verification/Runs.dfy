/**
 What holds over whole runs of a room: conservation, contiguity, solvency, and a past that stays as it was reported.
 */
module Runs {
  import opened Common
  import opened Exponents
  import opened Ledger
  import opened Rooms
  import opened Status
  import opened Sums
  import opened Windows

  /** A request and the clock its transaction read. */
  datatype Event = Event(now: int, req: Request)

  /** The room after a run. */
  function After(ms: Masters, s: RoomState, es: seq<Event>): RoomState
  {
    if |es| == 0 then s
    else Step(ms, After(ms, s, es[..|es| - 1]), es[|es| - 1].now, es[|es| - 1].req)
  }

  /** Whether the run's k-th request is accepted. */
  predicate Accepted(ms: Masters, es: seq<Event>, k: nat)
    requires k < |es|
  {
    Accepts(ms, After(ms, EMPTY_ROOM, es[..k]), es[k].now, es[k].req)
  }

  lemma {:induction false} RunsStayValid(ms: Masters, es: seq<Event>)
    ensures ValidState(ms, After(ms, EMPTY_ROOM, es))
  {
    if |es| > 0 {
      RunsStayValid(ms, es[..|es| - 1]);
      StepKeepsValid(ms, After(ms, EMPTY_ROOM, es[..|es| - 1]), es[|es| - 1].now, es[|es| - 1].req);
    }
  }

  // ---- Conservation ------------------------------------------------------------------------------------

  /** What an accepted request adds by time t. */
  function IsuOf(q: Request, t: int): int { if q.AddIsu? && q.time <= t then q.isu else 0 }

  function AcceptedIsu(ms: Masters, es: seq<Event>, t: int): int
  {
    if |es| == 0 then 0
    else AcceptedIsu(ms, es[..|es| - 1], t) + (if Accepted(ms, es, |es| - 1) then IsuOf(es[|es| - 1].req, t) else 0)
  }

  lemma WithIsuTotal(adding: seq<Adding>, isu: int, time: int, t: int)
    ensures Sum(WithIsu(adding, isu, time), IsuBy(t)) == Sum(adding, IsuBy(t)) + (if time <= t then isu else 0)
    ensures Sum(WithIsu(adding, isu, time), IsuAt(t)) == Sum(adding, IsuAt(t)) + (if time == t then isu else 0)
  {
    var k := RowIndex(adding, time);
    if k < |adding| {
      SumUpdated(adding, k, Adding(time, adding[k].isu + isu), IsuBy(t));
      SumUpdated(adding, k, Adding(time, adding[k].isu + isu), IsuAt(t));
    } else {
      SumPush(adding, Adding(time, isu), IsuBy(t));
      SumPush(adding, Adding(time, isu), IsuAt(t));
    }
  }

  /** The isu in the table up to t is exactly what accepted requests dated up to t added. */
  lemma {:induction false} IsuIsConserved(ms: Masters, es: seq<Event>, t: int)
    ensures Sum(After(ms, EMPTY_ROOM, es).adding, IsuBy(t)) == AcceptedIsu(ms, es, t)
  {
    if |es| > 0 {
      var n := |es| - 1;
      IsuIsConserved(ms, es[..n], t);
      var s, q := After(ms, EMPTY_ROOM, es[..n]), es[n].req;
      if Accepts(ms, s, es[n].now, q) && q.AddIsu? {
        WithIsuTotal(s.adding, q.isu, q.time, t);
      }
    }
  }

  // ---- Contiguity --------------------------------------------------------------------------------------

  /** Tables only grow: purchases are never changed or removed, and the room clock never goes back. */
  lemma {:induction false} PurchasesArePermanent(ms: Masters, es: seq<Event>, k: nat)
    requires k <= |es|
    ensures After(ms, EMPTY_ROOM, es[..k]).buying <= After(ms, EMPTY_ROOM, es).buying
    ensures After(ms, EMPTY_ROOM, es[..k]).time <= After(ms, EMPTY_ROOM, es).time
  {
    if k < |es| {
      var n := |es| - 1;
      PurchasesArePermanent(ms, es[..n], k);
      assert es[..n][..k] == es[..k];
    } else {
      assert es[..k] == es;
    }
  }

  lemma {:induction false} PrefixCounts(xs: seq<Buying>, ys: seq<Buying>, f: Buying -> int)
    requires xs <= ys && forall i :: 0 <= i < |ys| ==> 0 <= f(ys[i])
    ensures Sum(xs, f) <= Sum(ys, f)
  {
    assert ys == xs + ys[|xs|..];
    SumConcat(xs, ys[|xs|..], f);
    SumNonNegative(ys[|xs|..], f);
  }

  /** Each item's ordinals are exactly 1..n. */
  lemma {:induction false} OrdinalsAreContiguous(buying: seq<Buying>, item: int, n: int)
    requires InOrdinalOrder(buying)
    ensures (exists k :: 0 <= k < |buying| && buying[k].item == item && buying[k].ordinal == n)
      <==> 1 <= n <= Bought(buying, item)
  {
    if |buying| > 0 {
      var m := |buying| - 1;
      assert InOrdinalOrder(buying[..m]) by {
        forall k | 0 <= k < m ensures buying[..m][k].ordinal == Bought(buying[..m][..k], buying[..m][k].item) + 1 {
          assert buying[..m][..k] == buying[..k];
        }
      }
      OrdinalsAreContiguous(buying[..m], item, n);
      if exists k :: 0 <= k < m && buying[..m][k].item == item && buying[..m][k].ordinal == n {
        var k :| 0 <= k < m && buying[..m][k].item == item && buying[..m][k].ordinal == n;
        assert buying[k].item == item && buying[k].ordinal == n;
      }
      assert buying[m].ordinal == Bought(buying[..m], buying[m].item) + 1;
    }
  }

  /** No copy of an item is bought twice. */
  lemma NoCopyIsBoughtTwice(ms: Masters, es: seq<Event>, j: nat, k: nat)
    requires j < k < |es| && es[j].req.BuyItem? && es[k].req.BuyItem?
    requires Accepted(ms, es, j) && Accepted(ms, es, k)
    ensures es[j].req.item != es[k].req.item || es[j].req.countBought < es[k].req.countBought
  {
    var q := es[j].req;
    assert es[..j + 1][..j] == es[..j];
    SumPush(After(ms, EMPTY_ROOM, es[..j]).buying, Buying(q.item, q.countBought + 1, q.time), OfItem(q.item));
    PurchasesArePermanent(ms, es[..k], j + 1);
    assert es[..k][..j + 1] == es[..j + 1];
    PrefixCounts(After(ms, EMPTY_ROOM, es[..j + 1]).buying, After(ms, EMPTY_ROOM, es[..k]).buying, OfItem(q.item));
  }

  // ---- Solvency ------------------------------------------------------------------------------------------

  ghost predicate NoNegativeAdds(es: seq<Event>)
  {
    forall k :: 0 <= k < |es| && es[k].req.AddIsu? ==> 0 <= es[k].req.isu
  }

  /** The build time of the most recently accepted purchase. */
  function LastPurchase(ms: Masters, es: seq<Event>): Option<int>
  {
    if |es| == 0 then None
    else if es[|es| - 1].req.BuyItem? && Accepted(ms, es, |es| - 1) then Some(es[|es| - 1].req.time)
    else LastPurchase(ms, es[..|es| - 1])
  }

  lemma {:induction false} AddsStayNonNegative(ms: Masters, es: seq<Event>)
    requires NoNegativeAdds(es)
    ensures NonNegativeIsu(After(ms, EMPTY_ROOM, es).adding)
  {
    if |es| > 0 {
      AddsStayNonNegative(ms, es[..|es| - 1]);
    }
  }

  /** From the build time of the last accepted purchase on, the balance is never negative. */
  lemma {:induction false} RoomStaysSolvent(ms: Masters, es: seq<Event>, t: int)
    requires NoNegativeAdds(es)
    requires LastPurchase(ms, es).Some? ==> LastPurchase(ms, es).value <= t
    ensures 0 <= Balance(ms, After(ms, EMPTY_ROOM, es).adding, After(ms, EMPTY_ROOM, es).buying, t)
  {
    if |es| > 0 {
      var n := |es| - 1;
      var s, q := After(ms, EMPTY_ROOM, es[..n]), es[n].req;
      if Accepts(ms, s, es[n].now, q) && q.BuyItem? {
        AddsStayNonNegative(ms, es[..n]);
        BalanceAfterPurchase(ms, s.adding, s.buying, Buying(q.item, q.countBought + 1, q.time), q.time);
        BalanceNeverFalls(ms, s.adding, s.buying + [Buying(q.item, q.countBought + 1, q.time)], q.time, t);
      } else {
        RoomStaysSolvent(ms, es[..n], t);
        if Accepts(ms, s, es[n].now, q) && q.AddIsu? {
          WithIsuTotal(s.adding, q.isu, q.time, t);
        }
      }
    }
  }

  lemma {:induction false} LastPurchaseIsARow(ms: Masters, es: seq<Event>)
    requires LastPurchase(ms, es).Some?
    ensures exists k ::
      && 0 <= k < |After(ms, EMPTY_ROOM, es).buying|
      && After(ms, EMPTY_ROOM, es).buying[k].time == LastPurchase(ms, es).value
  {
    var n := |es| - 1;
    var s, q := After(ms, EMPTY_ROOM, es[..n]), es[n].req;
    var after := After(ms, EMPTY_ROOM, es).buying;
    if q.BuyItem? && Accepted(ms, es, n) {
      assert after[|after| - 1].time == q.time;
    } else {
      LastPurchaseIsARow(ms, es[..n]);
      var k :| 0 <= k < |s.buying| && s.buying[k].time == LastPurchase(ms, es).value;
      assert after[k] == s.buying[k];
    }
  }

  /** Every status taken once all purchases are built shows a non-negative balance throughout its window. */
  lemma SettledStatusIsSolvent(ms: Masters, es: seq<Event>, c: int, k: nat)
    requires NoNegativeAdds(es)
    requires forall j :: 0 <= j < |After(ms, EMPTY_ROOM, es).buying| ==> After(ms, EMPTY_ROOM, es).buying[j].time <= c
    requires k
      < |ScheduleTo(WindowOf(ms, After(ms, EMPTY_ROOM, es).adding, After(ms, EMPTY_ROOM, es).buying, c), c + 1000)|
    ensures 0 <= ScheduleTo(WindowOf(ms, After(ms, EMPTY_ROOM, es).adding, After(ms, EMPTY_ROOM, es).buying, c),
      c + 1000)[k].milliIsu
  {
    var s := After(ms, EMPTY_ROOM, es);
    var w := WindowOf(ms, s.adding, s.buying, c);
    RunsStayValid(ms, es);
    ScheduleIsExact(w, c + 1000);
    var t := ScheduleTo(w, c + 1000)[k].time;
    SimulationIsLedger(ms, s.adding, s.buying, c, t);
    if LastPurchase(ms, es).Some? {
      LastPurchaseIsARow(ms, es);
    }
    RoomStaysSolvent(ms, es, t);
  }

  // ---- The past stays as it was ----------------------------------------------------------------------------

  ghost predicate SameAt(ms: Masters, s: RoomState, r: RoomState, t: int)
  {
    && Sum(s.adding, IsuBy(t)) == Sum(r.adding, IsuBy(t))
    && TotalPower(ms, s.buying, t) == TotalPower(ms, r.buying, t)
    && forall i :: Built(s.buying, i, t) == Built(r.buying, i, t)
  }

  /** Add totals, total power and built counts at every time before `now` are the same in both states. */
  ghost predicate SamePast(ms: Masters, s: RoomState, r: RoomState, now: int)
  {
    forall t :: t < now ==> SameAt(ms, s, r, t)
  }

  /**
   An accepted request leaves the past alone exactly when it carries a time, or there is no past at time 0, or it
   adds nothing.
   */
  lemma PastIsFrozenUnlessUntimed(ms: Masters, s: RoomState, now: int, q: Request)
    requires Accepts(ms, s, now, q) && !q.View?
    ensures SamePast(ms, s, Step(ms, s, now, q), now) <==> (q.time != 0 || now <= 0 || q == AddIsu(0, 0))
  {
    var r := Step(ms, s, now, q);
    if q.AddIsu? {
      forall t ensures Sum(r.adding, IsuBy(t)) == Sum(s.adding, IsuBy(t)) + (if q.time <= t then q.isu else 0) {
        WithIsuTotal(s.adding, q.isu, q.time, t);
      }
      if q.time == 0 && 0 < now && q.isu != 0 {
        assert !SameAt(ms, s, r, 0);
        assert Sum(r.adding, IsuBy(0)) != Sum(s.adding, IsuBy(0));
      }
    } else {
      var b := Buying(q.item, q.countBought + 1, q.time);
      forall t ensures TotalPower(ms, r.buying, t) == TotalPower(ms, s.buying, t) + PowerBy(ms, t)(b) {
        SumPush(s.buying, b, PowerBy(ms, t));
      }
      forall t, i ensures Built(r.buying, i, t) == Built(s.buying, i, t) + BuiltBy(i, t)(b) {
        SumPush(s.buying, b, BuiltBy(i, t));
      }
      if q.time == 0 && 0 < now {
        assert Built(r.buying, q.item, 0) != Built(s.buying, q.item, 0);
        assert !SameAt(ms, s, r, 0);
      }
    }
  }

  /** From the k-th on, every request carries a time. */
  ghost predicate TimedFrom(es: seq<Event>, k: nat)
  {
    forall j :: k <= j < |es| ==> es[j].req.View? || es[j].req.time != 0
  }

  lemma SamePastChains(ms: Masters, s: RoomState, r: RoomState, q: RoomState, t: int, u: int)
    requires SamePast(ms, s, r, t) && SamePast(ms, r, q, u) && t <= u
    ensures SamePast(ms, s, q, t)
  {
    forall v | v < t ensures SameAt(ms, s, q, v) {
      assert SameAt(ms, s, r, v) && SameAt(ms, r, q, v);
    }
  }

  /** Whatever timed requests come after a state, the past before its room time is never rewritten. */
  lemma {:induction false} PastIsPermanent(ms: Masters, es: seq<Event>, k: nat)
    requires k <= |es| && TimedFrom(es, k)
    ensures SamePast(ms, After(ms, EMPTY_ROOM, es[..k]), After(ms, EMPTY_ROOM, es), After(ms, EMPTY_ROOM, es[..k]).time)
  {
    if k < |es| {
      var n := |es| - 1;
      PastIsPermanent(ms, es[..n], k);
      assert es[..n][..k] == es[..k];
      PurchasesArePermanent(ms, es[..n], k);
      var s := After(ms, EMPTY_ROOM, es[..n]);
      if Accepts(ms, s, es[n].now, es[n].req) {
        if !es[n].req.View? {
          PastIsFrozenUnlessUntimed(ms, s, es[n].now, es[n].req);
        }
        SamePastChains(ms, After(ms, EMPTY_ROOM, es[..k]), s, After(ms, EMPTY_ROOM, es),
          After(ms, EMPTY_ROOM, es[..k]).time, es[n].now);
      }
    } else {
      assert es[..k] == es;
    }
  }

  /**
   From one status of a room to any later one, time, every built count, every bought count and the total power never
   decrease.
   */
  lemma StatusesNeverRegress(ms: Masters, es: seq<Event>, j: nat, k: nat, item: int)
    requires j <= k < |es| && es[j].req.View? && es[k].req.View?
    requires Accepted(ms, es, j) && Accepted(ms, es, k)
    ensures es[j].now <= es[k].now
    ensures Built(After(ms, EMPTY_ROOM, es[..j]).buying, item, es[j].now)
      <= Built(After(ms, EMPTY_ROOM, es[..k]).buying, item, es[k].now)
    ensures Bought(After(ms, EMPTY_ROOM, es[..j]).buying, item) <= Bought(After(ms, EMPTY_ROOM, es[..k]).buying, item)
    ensures TotalPower(ms, After(ms, EMPTY_ROOM, es[..j]).buying, es[j].now)
      <= TotalPower(ms, After(ms, EMPTY_ROOM, es[..k]).buying, es[k].now)
  {
    var xs, ys := After(ms, EMPTY_ROOM, es[..j]).buying, After(ms, EMPTY_ROOM, es[..k]).buying;
    var c, d := es[j].now, es[k].now;
    if j < k {
      PurchasesArePermanent(ms, es[..k], j + 1);
      assert es[..k][..j + 1] == es[..j + 1] && es[..j + 1][..j] == es[..j];
    }
    PrefixCounts(xs, ys, BuiltBy(item, c));
    PrefixCounts(xs, ys, OfItem(item));
    PrefixCounts(xs, ys, PowerBy(ms, c));
    SumAtMost(ys, BuiltBy(item, c), BuiltBy(item, d));
    SumAtMost(ys, PowerBy(ms, c), PowerBy(ms, d));
  }

  // ---- What a status promises about purchases -----------------------------------------------------------------

  /** The list offers the item from r or earlier. */
  predicate OnSaleBy(list: seq<OnSale>, item: int, r: int) { exists o :: o in list && o.itemId == item && o.time <= r }

  lemma ListedTime(list: seq<OnSale>, m: map<int, int>, item: int, r: int)
    requires ListsTimes(list, m)
    ensures OnSaleBy(list, item, r) <==> item in m && m[item] <= r
  {
    if item in m {
      var k :| 0 <= k < |list| && list[k].itemId == item;
      assert list[k] in list;
    }
  }

  lemma AffordableFromOnSaleTime(w: Window, ms: Masters, adding: seq<Adding>, buying: seq<Buying>, c: int, need: int,
                                 r: int)
    requires w == WindowOf(ms, adding, buying, c)
    requires UniqueTimes(adding) && NonNegativeIsu(adding) && 0 <= c <= r <= c + 1000
    ensures need <= Balance(ms, adding, buying, r)
      <==> OnSaleTo(w, need, Horizon(w)).Some? && OnSaleTo(w, need, Horizon(w)).value <= r
  {
    OnSaleIsFirst(w, need, Horizon(w));
    SimulationIsLedger(ms, adding, buying, c, r);
    if need <= w.base {
      BalanceNeverFalls(ms, adding, buying, c, r);
    } else if OnSaleTo(w, need, Horizon(w)).Some? && OnSaleTo(w, need, Horizon(w)).value <= r {
      var t := OnSaleTo(w, need, Horizon(w)).value;
      SimulationIsLedger(ms, adding, buying, c, t);
      BalanceNeverFalls(ms, adding, buying, t, r);
    }
  }

  lemma OnSaleMatchesNeed(w: Window, ms: Masters, buying: seq<Buying>, list: seq<OnSale>, item: int, r: int)
    requires w.ms == ms && item in ms
    requires ListsTimes(list, OnSaleMap(w, Needs(ms, BoughtMap(ms, buying)), Horizon(w)))
    ensures OnSaleBy(list, item, r)
      <==> OnSaleTo(w, Need(ms, item, Bought(buying, item)), Horizon(w)).Some?
           && OnSaleTo(w, Need(ms, item, Bought(buying, item)), Horizon(w)).value <= r
  {
    var needs := Needs(ms, BoughtMap(ms, buying));
    assert needs[item] == Need(ms, item, Bought(buying, item));
    ListedTime(list, OnSaleMap(w, needs, Horizon(w)), item, r);
  }

  lemma StatusItem(st: GameStatus, w: Window, ms: Masters, buying: seq<Buying>, x: ItemStatus, r: int)
    requires Shows(st, w, BoughtMap(ms, buying)) && w.ms == ms && x in st.items
    ensures x.itemId in ms && x.countBought == Bought(buying, x.itemId)
    ensures OnSaleBy(st.onSale, x.itemId, r)
      <==> OnSaleTo(w, Need(ms, x.itemId, Bought(buying, x.itemId)), Horizon(w)).Some?
           && OnSaleTo(w, Need(ms, x.itemId, Bought(buying, x.itemId)), Horizon(w)).value <= r
  {
    OnSaleMatchesNeed(w, ms, buying, st.onSale, x.itemId, r);
  }

  lemma ListedMeansAffordable(w: Window, ms: Masters, s: RoomState, st: GameStatus, c: int, x: ItemStatus, r: int)
    requires UniqueTimes(s.adding) && NonNegativeIsu(s.adding)
    requires w == WindowOf(ms, s.adding, s.buying, c) && Shows(st, w, BoughtMap(ms, s.buying))
    requires x in st.items && 0 <= c <= r <= c + 1000
    ensures Affordable(ms, s, x.itemId, x.countBought, r) <==> OnSaleBy(st.onSale, x.itemId, r)
  {
    var need := Need(ms, x.itemId, Bought(s.buying, x.itemId));
    StatusItem(st, w, ms, s.buying, x, r);
    AffordableFromOnSaleTime(w, ms, s.adding, s.buying, c, need, r);
  }

  /**
   As long as the tables are unchanged, a purchase of the next copy at any time of the window that is not past
   succeeds exactly when the status lists the item as on sale by then.
   */
  lemma OnSaleMeansBuyable(ms: Masters, s: RoomState, st: GameStatus, c: int, now: int, x: ItemStatus, r: int)
    requires ValidState(ms, s) && NonNegativeIsu(s.adding)
    requires IsStatusOf(st, ms, s.adding, s.buying, c) && 0 <= c
    requires x in st.items
    requires s.time <= now <= r && c <= r <= c + 1000
    ensures Accepts(ms, s, now, BuyItem(x.itemId, x.countBought, r))
      <==> OnSaleBy(st.onSale, x.itemId, r)
  {
    ListedMeansAffordable(WindowOf(ms, s.adding, s.buying, c), ms, s, st, c, x, r);
  }

  /** What an add changes: from its time on the balance is higher by 1000 milli-isu for each isu. */
  lemma BalanceAfterAdd(ms: Masters, s: RoomState, now: int, isu: int, time: int, t: int)
    requires Accepts(ms, s, now, AddIsu(isu, time))
    ensures var n := Step(ms, s, now, AddIsu(isu, time));
            && Balance(ms, n.adding, n.buying, t)
              == Balance(ms, s.adding, s.buying, t) + (if time <= t then 1000 * isu else 0)
            && n.buying == s.buying && n.time == now
  {
    WithIsuTotal(s.adding, isu, time, t);
  }

  /** Buying the next copy of the item for time r lowers the balance at t by 1000 * p, as long as t is before r. */
  predicate CostsUntilBuilt(ms: Masters, adding: seq<Adding>, buying: seq<Buying>, item: int, p: int, r: int, t: int)
  {
    t < r ==>
      Balance(ms, adding, buying + [Buying(item, Bought(buying, item) + 1, r)], t)
        == Balance(ms, adding, buying, t) - 1000 * p
  }

  /** A purchase for time r succeeds exactly if it is neither before the room nor past and the balance covers p isu. */
  predicate SoldFor(ms: Masters, s: RoomState, now: int, item: int, n: nat, r: int, p: int)
  {
    Accepts(ms, s, now, BuyItem(item, n, r)) <==>
      s.time <= now && (r != 0 ==> now <= r) && 1000 * p <= Balance(ms, s.adding, s.buying, r)
  }

  lemma NextCopyCosts(ms: Masters, adding: seq<Adding>, buying: seq<Buying>, item: int, r: int, t: int)
    ensures CostsUntilBuilt(ms, adding, buying, item, Price(ms, item, Bought(buying, item) + 1), r, t)
  {
    BalanceAfterPurchase(ms, adding, buying, Buying(item, Bought(buying, item) + 1, r), t);
  }

  lemma ListedNextPrice(ms: Masters, st: GameStatus, adding: seq<Adding>, buying: seq<Buying>, c: int, x: ItemStatus)
    requires IsStatusOf(st, ms, adding, buying, c) && x in st.items
    ensures x.itemId in ms && x.countBought == Bought(buying, x.itemId)
    ensures x.nextPrice == Big2Exp(Price(ms, x.itemId, Bought(buying, x.itemId) + 1))
  {
    hide Big2Exp, Price, RoundBatches, BatchesTo, Bought, Balance, TotalPower, ItemPower, Built, FutureAdds, FutureBuys;
  }

  lemma NextPriceDecides(ms: Masters, s: RoomState, now: int, item: int, r: int)
    requires item in ms
    ensures SoldFor(ms, s, now, item, Bought(s.buying, item), r, Price(ms, item, Bought(s.buying, item) + 1))
  {
  }

  /**
   The next price a status shows for an item is what the next copy costs: until it is built the balance is lower by
   just that, and at any time a purchase succeeds exactly if its time is right and the balance covers it.
   */
  lemma NextPriceIsPaid(ms: Masters, st: GameStatus, adding: seq<Adding>, buying: seq<Buying>, c: int, x: ItemStatus)
    returns (p: int)
    requires IsStatusOf(st, ms, adding, buying, c) && x in st.items
    ensures x.nextPrice == Big2Exp(p)
    ensures forall r, t :: CostsUntilBuilt(ms, adding, buying, x.itemId, p, r, t)
    ensures forall roomTime, now, r ::
      SoldFor(ms, RoomState(roomTime, adding, buying), now, x.itemId, x.countBought, r, p)
  {
    hide Balance, Price, Big2Exp, CostsUntilBuilt, SoldFor, Bought, IsStatusOf;
    p := Price(ms, x.itemId, Bought(buying, x.itemId) + 1);
    ListedNextPrice(ms, st, adding, buying, c, x);
    forall r, t ensures CostsUntilBuilt(ms, adding, buying, x.itemId, p, r, t) {
      NextCopyCosts(ms, adding, buying, x.itemId, r, t);
    }
    forall roomTime, now, r
      ensures SoldFor(ms, RoomState(roomTime, adding, buying), now, x.itemId, x.countBought, r, p)
    {
      NextPriceDecides(ms, RoomState(roomTime, adding, buying), now, x.itemId, r);
    }
  }
}
