/**
 The other half of interval soundness: what a status the fast validator accepts says about the log itself.  Every copy
 it counts was asked for in time, and both balances are those of rooms the log allows.
 */
module AskedFor {
  import opened BenchCheck
  import opened BenchLog
  import opened Common
  import opened Exponents
  import opened Ledger
  import opened Rooms
  import opened Rows
  import opened Status
  import opened StatusCheck
  import opened Sums
  import opened Windows

  // ---- The entry that holds a copy ----------------------------------------------------------------------------------

  lemma {:induction false} BuiltNowGrows(w: Window, item: int, s: int, t: int)
    requires w.start <= s <= t
    ensures BuiltNow(w, item, s) <= BuiltNow(w, item, t)
    ensures s < t && BuildsAt(w, item, t) ==> BuiltNow(w, item, s) < BuiltNow(w, item, t)
    decreases t - w.start
  {
    if s < t {
      BuiltNowGrows(w, item, s, t - 1);
      SumNonNegative(BuysAt(w, t), OfItem(item));
      if BuildsAt(w, item, t) {
        var b :| b in BuysAt(w, t) && b.item == item;
        var k :| 0 <= k < |BuysAt(w, t)| && BuysAt(w, t)[k] == b;
        SumWithout(BuysAt(w, t), k, OfItem(item));
        SumNonNegative(BuysAt(w, t)[..k] + BuysAt(w, t)[k + 1..], OfItem(item));
      }
    }
  }

  /** The building list of an item shown as a window shows it rises strictly above what is built, after the start. */
  lemma ViewedCountsUp(w: Window, x: ItemStatus)
    requires Viewed(w, x)
    ensures CountsUp(x.building, x.countBuilt)
    ensures forall p :: 0 <= p < |x.building| ==> w.start < x.building[p].time
  {
    var bs := BatchesTo(w, x.itemId, Horizon(w));
    BatchesAreExact(w, x.itemId, Horizon(w));
    assert x.building == RoundBatches(bs) && x.countBuilt == BuiltNow(w, x.itemId, w.start);
    forall p | 0 <= p < |bs| ensures BuiltNow(w, x.itemId, w.start) < bs[p].countBuilt {
      BuiltNowGrows(w, x.itemId, w.start, bs[p].time);
    }
    forall p, q | 0 <= p < q < |bs| ensures bs[p].countBuilt < bs[q].countBuilt {
      BuiltNowGrows(w, x.itemId, bs[p].time, bs[q].time);
    }
  }

  /** Entry p of the list is the first whose count reaches copy k. */
  predicate FirstReaches(building: seq<Building>, k: nat, p: nat)
  {
    p < |building| && k <= building[p].countBuilt && forall q :: 0 <= q < p ==> building[q].countBuilt < k
  }

  lemma WalkIsFirst(x: ItemStatus, k: nat, p: nat)
    requires CountsUp(x.building, x.countBuilt) && x.countBuilt <= k
    ensures p < |x.building| && WalkIdx(x.building, x.countBuilt, k) == p <==> FirstReaches(x.building, k, p)
  {
    WalkReaches(x.building, x.countBuilt, k);
  }

  // ---- Requests behind a status -------------------------------------------------------------------------------------

  /** The client asked for copy k of the item, and was told that it succeeded, or was told nothing. */
  predicate Won(e: Entry, item: int, k: nat)
  {
    e.answered && e.success && e.req.BuyItem? && e.req.item == item && e.req.countBought == k - 1
  }
  predicate Unheard(e: Entry, item: int, k: nat)
  {
    !e.answered && e.req.BuyItem? && e.req.item == item && e.req.countBought == k - 1
  }

  ghost predicate WasWon(log: seq<Entry>, item: int, k: nat) { exists e :: e in log && Won(e, item, k) }

  /** A copy shown as built at c: won for a time by c, or asked for by c without an answer. */
  ghost predicate BuiltIsAsked(log: seq<Entry>, c: int, item: int, k: nat)
  {
    if WasWon(log, item, k) then forall e :: e in log && Won(e, item, k) ==> e.req.time <= c
    else exists e :: e in log && Unheard(e, item, k) && e.req.time <= c
  }

  /**
   A copy to come at t: won for that time; or never won, t after c, and asked for without an answer no later and no
   earlier than t.
   */
  ghost predicate ComingIsAsked(log: seq<Entry>, c: int, item: int, k: nat, t: int)
  {
    if WasWon(log, item, k) then forall e :: e in log && Won(e, item, k) ==> e.req.time == t
    else
      && c < t
      && (exists e :: e in log && Unheard(e, item, k) && e.req.time <= t)
      && exists e :: e in log && Unheard(e, item, k) && t <= e.req.time
  }

  ghost predicate ItemIsAsked(log: seq<Entry>, c: int, x: ItemStatus)
  {
    && (forall k: nat :: 1 <= k <= x.countBuilt ==> BuiltIsAsked(log, c, x.itemId, k))
    && (forall k: nat :: x.countBuilt < k <= x.countBought ==> ComesAsAsked(log, c, x, k))
    && forall e :: e in log && Won(e, x.itemId, x.countBought + 1) ==> c < e.req.time
  }

  /** The first building entry that counts copy k tells its time. */
  ghost predicate ComesAsAsked(log: seq<Entry>, c: int, x: ItemStatus, k: nat)
  {
    exists p: nat :: FirstReaches(x.building, k, p) && ComingIsAsked(log, c, x.itemId, k, x.building[p].time)
  }

  /** The isu asked for at t by requests that succeeded or were never answered. */
  function AskedIsu(t: int): Entry -> int {
    (e: Entry) => if (!e.answered || e.success) && e.req.AddIsu? && e.req.time == t then e.req.isu else 0
  }

  ghost predicate AddIsAsked(log: seq<Entry>, a: Adding)
  {
    && (exists e :: e in log && (!e.answered || e.success) && e.req.AddIsu? && e.req.time == a.time)
    && a.isu <= Sum(log, AskedIsu(a.time))
  }

  ghost predicate StatusIsAsked(log: seq<Entry>, st: GameStatus)
    requires |st.schedule| > 0
  {
    && (forall k :: 0 <= k < |st.adding| ==> AddIsAsked(log, st.adding[k]))
    && (forall k :: 0 <= k < |st.items| ==> ItemIsAsked(log, st.schedule[0].time, st.items[k]))
  }

  // ---- What the dictionaries say of the log -------------------------------------------------------------------------

  lemma WonIsConfirmed(log: seq<Entry>, d: Dicts, item: int, k: nat)
    requires DictsOf(log, d) && 1 <= k
    ensures Copy(item, k - 1) in d.buys <==> WasWon(log, item, k)
    ensures forall e :: e in log && Won(e, item, k) ==>
      Copy(item, k - 1) in d.buys && d.buys[Copy(item, k - 1)] == e.req.time
  {
    hide AddsLogged, OpenAddsLogged, OpenBuysLogged;
    forall e ensures Won(e, item, k) <==> Succeeded(e) && Buys(e, Copy(item, k - 1)) {
    }
  }

  lemma UnheardIsOpen(log: seq<Entry>, d: Dicts, item: int, k: nat, t: int)
    requires DictsOf(log, d) && 1 <= k
    ensures var q := Copy(item, k - 1);
      && (q in d.earliest <==> q in d.latest)
      && (q in d.earliest <==> exists e :: e in log && Unheard(e, item, k))
      && (q in d.earliest && d.earliest[q] <= t <==> exists e :: e in log && Unheard(e, item, k) && e.req.time <= t)
      && (q in d.latest && t <= d.latest[q] <==> exists e :: e in log && Unheard(e, item, k) && t <= e.req.time)
  {
    hide AddsLogged, OpenAddsLogged, BuysLogged;
    var q := Copy(item, k - 1);
    forall e ensures Unheard(e, item, k) <==> !e.answered && Buys(e, q) {
    }
    if q in d.earliest {
      var e :| e in log && !e.answered && Buys(e, q) && e.req.time == d.earliest[q];
      var f :| f in log && !f.answered && Buys(f, q) && f.req.time == d.latest[q];
      assert Unheard(e, item, k) && Unheard(f, item, k);
    }
  }

  lemma BuiltMeans(log: seq<Entry>, d: Dicts, c: int, x: ItemStatus, k: nat)
    requires DictsOf(log, d) && 1 <= k
    ensures Requested(d, x, k) && HighTime(d)(x.itemId, k) <= c <==> BuiltIsAsked(log, c, x.itemId, k)
  {
    WonIsConfirmed(log, d, x.itemId, k);
    UnheardIsOpen(log, d, x.itemId, k, c);
    hide DictsOf;
    if WasWon(log, x.itemId, k) {
      var e :| e in log && Won(e, x.itemId, k);
    }
  }

  lemma ComingMeans(log: seq<Entry>, d: Dicts, c: int, x: ItemStatus, k: nat)
    requires DictsOf(log, d) && CountsUp(x.building, x.countBuilt) && x.countBuilt < k
    ensures Requested(d, x, k) && ComingFits(d, c, x, k) <==> ComesAsAsked(log, c, x, k)
  {
    var p := WalkIdx(x.building, x.countBuilt, k);
    forall q: nat ensures q < |x.building| && p == q <==> FirstReaches(x.building, k, q) {
      WalkIsFirst(x, k, q);
    }
    hide DictsOf, FirstReaches, WalkIdx, CountsUp;
    if p < |x.building| {
      TimeMeans(log, d, c, x.itemId, k, x.building[p].time);
    }
  }

  /** ComingFits' comparison with the entry's time. */
  lemma TimeMeans(log: seq<Entry>, d: Dicts, c: int, item: int, k: nat, t: int)
    requires DictsOf(log, d) && 1 <= k
    ensures var q := Copy(item, k - 1);
      (q in d.buys || (q in d.earliest && q in d.latest))
        && (if q in d.buys then d.buys[q] == t
            else t <= GetOr(d.latest, q, 0) && GetOr(d.earliest, q, 0) <= t && c + 1 <= t)
      <==> ComingIsAsked(log, c, item, k, t)
  {
    WonIsConfirmed(log, d, item, k);
    UnheardIsOpen(log, d, item, k, t);
    hide DictsOf;
    if WasWon(log, item, k) {
      var e :| e in log && Won(e, item, k);
    }
  }

  lemma MissedMeans(log: seq<Entry>, d: Dicts, c: int, x: ItemStatus)
    requires DictsOf(log, d)
    ensures NothingMissed(d, c, x) <==> forall e :: e in log && Won(e, x.itemId, x.countBought + 1) ==> c < e.req.time
  {
    WonIsConfirmed(log, d, x.itemId, x.countBought + 1);
    hide DictsOf;
    if WasWon(log, x.itemId, x.countBought + 1) {
      var e :| e in log && Won(e, x.itemId, x.countBought + 1);
    }
  }

  lemma AddMeans(log: seq<Entry>, d: Dicts, a: Adding)
    requires DictsOf(log, d)
    ensures AddPossible(d, a) <==> AddIsAsked(log, a)
  {
    hide BuysLogged, OpenBuysLogged;
    forall k | 0 <= k < |log|
      ensures AskedIsu(a.time)(log[k]) == SucceededIsu(a.time)(log[k]) + 1 * OpenIsu(a.time)(log[k])
    {
    }
    SumLinear(log, AskedIsu(a.time), SucceededIsu(a.time), 1, OpenIsu(a.time));
    hide Sum;
    assert forall e :: e in log && (!e.answered || e.success) && e.req.AddIsu? && e.req.time == a.time ==>
      (Succeeded(e) || !e.answered) && AddsAt(e, a.time);
  }

  lemma ItemMeans(log: seq<Entry>, d: Dicts, c: int, x: ItemStatus)
    requires DictsOf(log, d) && CountsUp(x.building, x.countBuilt) && x.countBuilt <= x.countBought
    ensures AllRequested(d, x) && ItemFits(d, c, x) <==> ItemIsAsked(log, c, x)
  {
    hide DictsOf, Requested, HighTime, ComingFits, BuiltIsAsked, ComesAsAsked, NothingMissed, Won, CountsUp;
    forall k: nat | 1 <= k <= x.countBuilt
      ensures Requested(d, x, k) && HighTime(d)(x.itemId, k) <= c <==> BuiltIsAsked(log, c, x.itemId, k)
    {
      BuiltMeans(log, d, c, x, k);
    }
    forall k: nat | x.countBuilt < k
      ensures Requested(d, x, k) && ComingFits(d, c, x, k) <==> ComesAsAsked(log, c, x, k)
    {
      ComingMeans(log, d, c, x, k);
    }
    MissedMeans(log, d, c, x);
  }

  ghost predicate ListsCountUp(items: seq<ItemStatus>)
  {
    forall k :: 0 <= k < |items| ==>
      CountsUp(items[k].building, items[k].countBuilt) && items[k].countBuilt <= items[k].countBought
  }

  /** The check against the dictionaries is one against the requests themselves. */
  lemma FittingIsAsked(log: seq<Entry>, d: Dicts, st: GameStatus)
    requires DictsOf(log, d) && |st.schedule| > 0 && ListsCountUp(st.items)
    ensures FitsLog(st, d) <==> StatusIsAsked(log, st)
  {
    hide DictsOf, AddPossible, AddIsAsked, AllRequested, ItemFits, ItemIsAsked, CountsUp;
    forall k | 0 <= k < |st.adding| ensures AddPossible(d, st.adding[k]) <==> AddIsAsked(log, st.adding[k]) {
      AddMeans(log, d, st.adding[k]);
    }
    forall k | 0 <= k < |st.items|
      ensures AllRequested(d, st.items[k]) && ItemFits(d, st.schedule[0].time, st.items[k])
        <==> ItemIsAsked(log, st.schedule[0].time, st.items[k])
    {
      ItemMeans(log, d, st.schedule[0].time, st.items[k]);
    }
  }

  /**
   The fast validator passes a well-formed status exactly if the requests in the log back it, copy by copy and add by
   add, the upper balance is not negative, and it shows nothing outside the two windows.
   */
  lemma PassesIfAsked(ms: Masters, st: GameStatus, log: seq<Entry>, d: Dicts)
    requires DictsOf(log, d) && |st.schedule| > 0
    requires forall k :: 0 <= k < |st.items| ==> st.items[k].countBuilt <= st.items[k].countBought
    ensures BenchVerdict(ms, st, d) <==>
      && StatusIsAsked(log, st)
      && 0 <= HighBase(ms, st, d) && PassesBetween(st, LowWindow(ms, st, d), HighBase(ms, st, d))
  {
    var w := LowWindow(ms, st, d);
    hide DictsOf, StatusIsAsked, FitsLog, CountsUp, Viewed, HighBase, LowWindow;
    if PassesBetween(st, w, HighBase(ms, st, d)) {
      forall k | 0 <= k < |st.items| ensures CountsUp(st.items[k].building, st.items[k].countBuilt) {
        ViewedCountsUp(w, st.items[k]);
      }
      FittingIsAsked(log, d, st);
    }
  }

  // ---- Refused for want of a request --------------------------------------------------------------------------------

  /**
   A status that places a copy at a time when nobody can have asked for it is refused: the copy was never won, and t is
   not after c, or before every unanswered request for it, or after every one.
   */
  lemma UnaskedIsRefused(ms: Masters, st: GameStatus, log: seq<Entry>, d: Dicts, i: nat, k: nat, p: nat)
    requires DictsOf(log, d) && |st.schedule| > 0 && i < |st.items|
    requires forall k :: 0 <= k < |st.items| ==> st.items[k].countBuilt <= st.items[k].countBought
    requires st.items[i].countBuilt < k <= st.items[i].countBought && FirstReaches(st.items[i].building, k, p)
    requires forall e :: e in log && e.answered && e.success && e.req.BuyItem? ==>
      e.req.item != st.items[i].itemId || e.req.countBought != k - 1
    requires var c, t, item := st.schedule[0].time, st.items[i].building[p].time, st.items[i].itemId;
      || t <= c
      || (forall e :: e in log && !e.answered && e.req == BuyItem(item, k - 1, e.req.time) ==> t < e.req.time)
      || forall e :: e in log && !e.answered && e.req == BuyItem(item, k - 1, e.req.time) ==> e.req.time < t
    ensures !BenchVerdict(ms, st, d)
  {
    var c, x := st.schedule[0].time, st.items[i];
    assert !WasWon(log, x.itemId, k);
    forall e | e in log && Unheard(e, x.itemId, k) ensures e.req == BuyItem(x.itemId, k - 1, e.req.time) {
    }
    assert !ComingIsAsked(log, c, x.itemId, k, x.building[p].time);
    forall q: nat ensures FirstReaches(x.building, k, q) ==> q == p {
    }
    assert !ComesAsAsked(log, c, x, k);
    assert !ItemIsAsked(log, c, x);
    hide DictsOf, ItemIsAsked, FirstReaches, ComingIsAsked;
    PassesIfAsked(ms, st, log, d);
  }

  /**
   One add of 10 isu is confirmed at c, and a purchase of the first copy for c + 300 was never answered; a status that
   places the copy at c + 700 is refused, whatever else it shows.
   */
  lemma LateCopyIsRefused(ms: Masters, st: GameStatus, d: Dicts, c: int, i: nat, power: Exponential)
    requires DictsOf([Entry(AddIsu(10, c), true, true), Entry(BuyItem(1, 0, c + 300), false, false)], d)
    requires |st.schedule| > 0 && st.schedule[0].time == c && i < |st.items|
    requires forall k :: 0 <= k < |st.items| ==> st.items[k].countBuilt <= st.items[k].countBought
    requires var x := st.items[i];
      x.itemId == 1 && x.countBought == 1 && x.countBuilt == 0 && x.building == [Building(c + 700, 1, power)]
    ensures !BenchVerdict(ms, st, d)
  {
    var log := [Entry(AddIsu(10, c), true, true), Entry(BuyItem(1, 0, c + 300), false, false)];
    UnaskedIsRefused(ms, st, log, d, i, 1, 0);
  }

  // ---- The slow validator -------------------------------------------------------------------------------------------

  function WonIsu(t: int): Entry -> int {
    (e: Entry) => if e.answered && e.success && e.req.AddIsu? && e.req.time == t then e.req.isu else 0
  }

  ghost predicate AddIsWon(log: seq<Entry>, a: Adding)
  {
    && (exists e :: e in log && e.answered && e.success && e.req.AddIsu? && e.req.time == a.time)
    && a.isu <= Sum(log, WonIsu(a.time))
  }

  /** Each counted copy was won, for a time by c exactly if it is shown as built, and the next was not won by c. */
  ghost predicate ItemIsWon(log: seq<Entry>, c: int, x: ItemStatus)
  {
    && (forall k: nat :: 1 <= k <= x.countBought ==> CopyIsWon(log, c, x, k))
    && forall e :: e in log && Won(e, x.itemId, x.countBought + 1) ==> c < e.req.time
  }

  ghost predicate CopyIsWon(log: seq<Entry>, c: int, x: ItemStatus, k: nat)
  {
    WasWon(log, x.itemId, k) && forall e :: e in log && Won(e, x.itemId, k) ==> (e.req.time <= c <==> k <= x.countBuilt)
  }

  ghost predicate StatusIsWon(log: seq<Entry>, st: GameStatus)
    requires |st.schedule| > 0
  {
    && (forall k :: 0 <= k < |st.adding| ==> AddIsWon(log, st.adding[k]))
    && (forall k :: 0 <= k < |st.items| ==> ItemIsWon(log, st.schedule[0].time, st.items[k]))
  }

  lemma CopyAgreesIfWon(log: seq<Entry>, d: Dicts, c: int, x: ItemStatus, k: nat)
    requires DictsOf(log, d) && 1 <= k
    ensures CopyAgrees(d, c, x, k) <==> CopyIsWon(log, c, x, k)
  {
    WonIsConfirmed(log, d, x.itemId, k);
    hide DictsOf;
    if WasWon(log, x.itemId, k) {
      var e :| e in log && Won(e, x.itemId, k);
    }
  }

  lemma AddIsBacked(log: seq<Entry>, d: Dicts, a: Adding)
    requires DictsOf(log, d)
    ensures AddBacked(d, a) <==> AddIsWon(log, a)
  {
    hide BuysLogged, OpenBuysLogged, OpenAddsLogged;
    SumAgree(log, WonIsu(a.time), SucceededIsu(a.time));
    hide Sum;
    assert forall e :: e in log && e.answered && e.success && e.req.AddIsu? && e.req.time == a.time ==>
      Succeeded(e) && AddsAt(e, a.time);
  }

  /**
   The slow validator accepts a status exactly if the requests that succeeded back it, and it shows, never negative,
   what the window read from it shows.
   */
  lemma AcceptsIfWon(ms: Masters, st: GameStatus, log: seq<Entry>, d: Dicts)
    requires DictsOf(log, d) && |st.schedule| > 0
    ensures StatusAccepts(ms, st, d) <==>
      StatusIsWon(log, st) && SolventShown(LoggedWindow(ms, st, d)) && Matches(st, LoggedWindow(ms, st, d))
  {
    var c := st.schedule[0].time;
    hide DictsOf, CopyAgrees, CopyIsWon, AddBacked, AddIsWon, NothingMissed, SolventShown, Matches, LoggedWindow, Won;
    forall k | 0 <= k < |st.adding| ensures AddBacked(d, st.adding[k]) <==> AddIsWon(log, st.adding[k]) {
      AddIsBacked(log, d, st.adding[k]);
    }
    forall k | 0 <= k < |st.items|
      ensures CopiesAgree(d, c, st.items[k]) && NothingMissed(d, c, st.items[k]) <==> ItemIsWon(log, c, st.items[k])
    {
      forall j: nat | 1 <= j ensures CopyAgrees(d, c, st.items[k], j) <==> CopyIsWon(log, c, st.items[k], j) {
        CopyAgreesIfWon(log, d, c, st.items[k], j);
      }
      MissedMeans(log, d, c, st.items[k]);
    }
  }
}
