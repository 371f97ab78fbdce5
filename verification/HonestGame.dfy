/** An honest server passes: whatever was answered, silently processed or lost, the log of its run is accepted. */
module HonestGame {
  import opened Answered
  import opened BenchLog
  import opened Bracketing
  import opened Common
  import opened Exponents
  import opened Format
  import opened GameLog
  import opened HonestRuns
  import opened Ledger
  import opened Rooms
  import opened Rows
  import opened Status
  import opened StatusCheck
  import opened Sums
  import opened Windows

  ghost predicate HasRow(adding: seq<Adding>, time: int) { exists a :: a in adding && a.time == time }

  // ---- A status computed after a request shows it -------------------------------------------------------------------

  lemma ListedAddIsFirst(adding: seq<Adding>, c: int, list: seq<Adding>, time: int, isu: int)
    requires UniqueTimes(adding) && ListsAdds(list, FutureAdds(adding, c)) && c < time
    requires HasRow(adding, time) && isu <= Sum(adding, IsuAt(time))
    ensures AddAnnounced(list, time, isu)
  {
    FutureAddsAt(adding, c, time);
    var a :| a in adding && a.time == time;
    var i :| 0 <= i < |adding| && adding[i] == a;
    var k :| 0 <= k < |list| && list[k].time == time;
    assert FirstAddIs(list, time, k);
  }

  lemma ScheduledIfInWindow(ms: Masters, adding: seq<Adding>, buying: seq<Buying>, c: int, s: seq<ScheduleEntry>,
                            time: int)
    requires UniqueTimes(adding) && c < time && HasRow(adding, time)
    requires s == RoundSchedule(ScheduleTo(WindowOf(ms, adding, buying, c), c + 1000))
    ensures Scheduled(s, time) <==> time <= c + 1000
  {
    var w := WindowOf(ms, adding, buying, c);
    var ps := ScheduleTo(w, c + 1000);
    ScheduleIsExact(w, c + 1000);
    FutureAddsAt(adding, c, time);
    var a :| a in adding && a.time == time;
    var i :| 0 <= i < |adding| && adding[i] == a;
    assert time in w.adds;
    assert EventAt(w, time);
    if time <= c + 1000 {
      var k :| 0 <= k < |ps| && ps[k] == PointAt(w, time);
      assert s[k].time == time;
    }
  }

  lemma StatusAnnounces(ms: Masters, st: GameStatus, adding: seq<Adding>, buying: seq<Buying>, c: int, time: int,
                        isu: int)
    requires UniqueTimes(adding) && IsStatusOf(st, ms, adding, buying, c) && c < time
    requires HasRow(adding, time) && isu <= Sum(adding, IsuAt(time))
    ensures AddAnnounced(st.adding, time, isu)
  {
    ListedAddIsFirst(adding, c, st.adding, time, isu);
  }

  lemma StatusSchedules(ms: Masters, st: GameStatus, adding: seq<Adding>, buying: seq<Buying>, c: int, time: int)
    requires UniqueTimes(adding) && IsStatusOf(st, ms, adding, buying, c) && c < time
    requires HasRow(adding, time)
    ensures Scheduled(st.schedule, time) <==> time <= c + 1000
  {
    hide ListsItems, ListsTimes, ListsAdds, Scheduled;
    ScheduledIfInWindow(ms, adding, buying, c, st.schedule, time);
  }

  /**
   A status computed once an add is in the table reflects it exactly if the add is dated within the status's window
   or before it.
   */
  lemma StatusReflectsAdd(ms: Masters, st: GameStatus, adding: seq<Adding>, buying: seq<Buying>, c: int, time: int,
                          isu: int)
    requires UniqueTimes(adding) && IsStatusOf(st, ms, adding, buying, c)
    requires HasRow(adding, time) && isu <= Sum(adding, IsuAt(time))
    ensures |st.schedule| > 0 && (AddReflected(st, time, isu) <==> time <= c + 1000)
  {
    StartsAt(ms, st, adding, buying, c);
    if c < time {
      StatusAnnounces(ms, st, adding, buying, c, time, isu);
      StatusSchedules(ms, st, adding, buying, c, time);
    }
  }

  lemma StatusReflectsBuy(ms: Masters, st: GameStatus, adding: seq<Adding>, buying: seq<Buying>, c: int, item: int,
                          n: nat)
    requires IsStatusOf(st, ms, adding, buying, c) && n <= Bought(buying, item)
    ensures BuyReflected(st, item, n)
  {
    ListedCountsAreRight(ms, adding, buying, c, st.items);
  }

  // ---- Reports of a run ---------------------------------------------------------------------------------------------

  /** A status sent when the first n happenings were done. */
  datatype Report = Report(n: nat, st: GameStatus)

  /** Computed from the room's tables at its time, while solvent. */
  ghost predicate Sent(ms: Masters, hs: seq<Happening>, r: Report)
  {
    && r.n <= |hs|
    && var s := RoomAfter(ms, hs[..r.n]);
       && IsStatusOf(r.st, ms, s.adding, s.buying, s.time) && 0 < r.st.time && s.time + 1000 < INT64_BOUND
       && 0 <= Balance(ms, s.adding, s.buying, s.time)
  }

  /** From the status's time on purchases are in time order, and no later request carries that time. */
  ghost predicate Undisturbed(ms: Masters, hs: seq<Happening>, r: Report)
  {
    r.n <= |hs|
      && var s := RoomAfter(ms, hs[..r.n]); NoneDatedAt(hs, r.n, s.time) && InTimeOrderFrom(s.buying, s.time)
  }

  ghost predicate BuiltSoon(ms: Masters, hs: seq<Happening>, n: nat)
    requires n <= |hs|
  {
    forall b :: b in RoomAfter(ms, hs[..n]).buying ==> b.time <= RoomAfter(ms, hs[..n]).time + 1000
  }

  /**
   No purchase is dated beyond the status's window, and the upper balance's search wraps for no item it lists as on
   sale.
   */
  ghost predicate GoesThrough(ms: Masters, hs: seq<Happening>, r: Report, d: Dicts)
    requires r.n <= |hs|
  {
    |r.st.schedule| > 0 && BuiltSoon(ms, hs, r.n) && NoListedWrap(ms, r.st, HighWindow(ms, r.st, d))
  }

  ghost predicate FairRun(hs: seq<Happening>) { NoNegativeIsu(hs) && AllTimed(hs) }

  lemma SentIsComputed(ms: Masters, hs: seq<Happening>, r: Report)
    requires FairRun(hs) && Sent(ms, hs, r)
    ensures var s := RoomAfter(ms, hs[..r.n]); Computed(ms, r.st, s.adding, s.buying, s.time)
  {
    assert forall h :: h in hs[..r.n] ==> h in hs;
    RoomStaysValid(ms, hs[..r.n]);
    EntriesNonNegative(ms, hs[..r.n]);
    LaterRun(ms, hs[..r.n], 0);
    assert hs[..r.n][..0] == [];
  }

  lemma SentIsWellFormed(ms: Masters, hs: seq<Happening>, r: Report)
    requires FairRun(hs) && Sent(ms, hs, r)
    ensures StatusOk(ms, r.st)
  {
    var s := RoomAfter(ms, hs[..r.n]);
    SentIsComputed(ms, hs, r);
    RoomStaysValid(ms, hs[..r.n]);
    StartsAt(ms, r.st, s.adding, s.buying, s.time);
    ComputedStatusPassesFormat(ms, s.adding, s.buying, s.time, r.st);
  }

  /** The fast validator's verdict on a status of the run. */
  lemma SentVerdict(ms: Masters, hs: seq<Happening>, r: Report, d: Dicts)
    requires FairRun(hs) && Sent(ms, hs, r) && Undisturbed(ms, hs, r) && DictsOf(LogOf(ms, hs), d)
    ensures Passes(ms, d, r.st) <==> GoesThrough(ms, hs, r, d)
  {
    var s := RoomAfter(ms, hs[..r.n]);
    SentIsComputed(ms, hs, r);
    LogExplainsEveryState(ms, hs, r.n, d);
    GenuineVerdict(ms, r.st, d, s.adding, s.buying, s.time);
  }

  // ---- What a client saw --------------------------------------------------------------------------------------------

  /**
   The status held against the k-th logged request was sent after the request was processed, and no more than a
   window before an add's time.
   */
  ghost predicate SeenInTime(ms: Masters, hs: seq<Happening>, k: nat, r: Report)
    requires k < |LogOf(ms, hs)|
  {
    && Sent(ms, hs, r) && k < |LogOf(ms, hs[..r.n])|
    && (LogOf(ms, hs)[k].req.AddIsu? ==> LogOf(ms, hs)[k].req.time <= RoomAfter(ms, hs[..r.n]).time + 1000)
  }

  lemma {:induction false} OneOfMany(log: seq<Entry>, k: nat, t: int)
    requires k < |log| && forall e :: e in log && e.req.AddIsu? ==> 0 <= e.req.isu
    ensures TookEffect(t)(log[k]) <= Sum(log, TookEffect(t))
  {
    SumWithout(log, k, TookEffect(t));
    var rest := log[..k] + log[k + 1..];
    forall i | 0 <= i < |rest| ensures 0 <= TookEffect(t)(rest[i]) {
      assert rest[i] in log;
    }
    SumNonNegative(rest, TookEffect(t));
  }

  predicate IsAdd(e: Entry) { e.success && e.req.AddIsu? }

  lemma {:induction false} LoggedAddIsRow(ms: Masters, hs: seq<Happening>)
    ensures forall e :: e in LogOf(ms, hs) && IsAdd(e) ==> HasRow(RoomAfter(ms, hs).adding, e.req.time)
  {
    if |hs| > 0 {
      var m := |hs| - 1;
      var s, h := RoomAfter(ms, hs[..m]), hs[m];
      LoggedAddIsRow(ms, hs[..m]);
      RoomStep(ms, hs);
      forall e | e in LogOf(ms, hs[..m]) + EntryFor(ms, s, h) && IsAdd(e)
        ensures HasRow(NextRoom(ms, s, h).adding, e.req.time)
      {
        if e in LogOf(ms, hs[..m]) {
          RowStays(ms, s, h, e.req.time);
        } else {
          NewRowIsThere(ms, s, h, e);
        }
      }
    }
  }

  lemma NewRowIsThere(ms: Masters, s: RoomState, h: Happening, e: Entry)
    requires e in EntryFor(ms, s, h) && IsAdd(e)
    ensures HasRow(NextRoom(ms, s, h).adding, e.req.time)
  {
    AddedRow(s.adding, e.req.isu, e.req.time);
  }

  lemma AddedRow(adding: seq<Adding>, isu: int, time: int)
    ensures HasRow(WithIsu(adding, isu, time), time)
  {
    var k, rows := RowIndex(adding, time), WithIsu(adding, isu, time);
    assert rows[k].time == time;
    assert rows[k] in rows;
  }

  lemma RowStays(ms: Masters, s: RoomState, h: Happening, time: int)
    requires HasRow(s.adding, time)
    ensures HasRow(NextRoom(ms, s, h).adding, time)
  {
    var next := NextRoom(ms, s, h).adding;
    var a :| a in s.adding && a.time == time;
    var j :| 0 <= j < |s.adding| && s.adding[j] == a;
    assert next[j].time == time;
    assert next[j] in next;
  }

  lemma SeenAdd(ms: Masters, hs: seq<Happening>, k: nat, r: Report)
    requires FairRun(hs) && Sent(ms, hs, r) && k < |LogOf(ms, hs[..r.n])| && IsAdd(LogOf(ms, hs[..r.n])[k])
    requires LogOf(ms, hs[..r.n])[k].req.time <= RoomAfter(ms, hs[..r.n]).time + 1000
    ensures |r.st.schedule| > 0 && AddReflected(r.st, LogOf(ms, hs[..r.n])[k].req.time, LogOf(ms, hs[..r.n])[k].req.isu)
  {
    var before := hs[..r.n];
    var e, s := LogOf(ms, before)[k], RoomAfter(ms, before);
    assert e in LogOf(ms, before);
    assert forall h :: h in before ==> h in hs;
    hide LogOf, RoomAfter, AddReflected, HasRow;
    RoomStaysValid(ms, before);
    EntriesNonNegative(ms, before);
    OneOfMany(LogOf(ms, before), k, e.req.time);
    IsuIsLogged(ms, before, e.req.time);
    LoggedAddIsRow(ms, before);
    StatusReflectsAdd(ms, r.st, s.adding, s.buying, s.time, e.req.time, e.req.isu);
  }

  lemma SentShowsTables(ms: Masters, hs: seq<Happening>, r: Report)
    requires Sent(ms, hs, r)
    ensures var s := RoomAfter(ms, hs[..r.n]); IsStatusOf(r.st, ms, s.adding, s.buying, s.time)
  {
  }

  lemma RecordedIsCounted(e: Entry, buying: seq<Buying>)
    requires EntryRecorded(e, buying) && InOrdinalOrder(buying) && e.success && e.req.BuyItem?
    ensures e.req.countBought < Bought(buying, e.req.item)
  {
    CopyOfRow(buying, Buying(e.req.item, e.req.countBought + 1, e.req.time));
  }

  lemma SeenBuy(ms: Masters, hs: seq<Happening>, k: nat, r: Report)
    requires Sent(ms, hs, r) && k < |LogOf(ms, hs[..r.n])|
    requires LogOf(ms, hs[..r.n])[k].success && LogOf(ms, hs[..r.n])[k].req.BuyItem?
    ensures BuyReflected(r.st, LogOf(ms, hs[..r.n])[k].req.item, LogOf(ms, hs[..r.n])[k].req.countBought)
  {
    var before := hs[..r.n];
    var e, s := LogOf(ms, before)[k], RoomAfter(ms, before);
    SentShowsTables(ms, hs, r);
    RoomStaysValid(ms, before);
    assert InOrdinalOrder(s.buying);
    hide LogOf, RoomAfter, BuyReflected, EntryRecorded, IsStatusOf, InOrdinalOrder, Sent;
    RowsAreLogged(ms, before);
    assert e in LogOf(ms, before) && EntryRecorded(e, s.buying);
    RecordedIsCounted(e, s.buying);
    StatusReflectsBuy(ms, r.st, s.adding, s.buying, s.time, e.req.item, e.req.countBought);
  }

  lemma SeenReflects(ms: Masters, hs: seq<Happening>, k: nat, r: Report)
    requires FairRun(hs) && k < |LogOf(ms, hs)| && SeenInTime(ms, hs, k, r)
    ensures |r.st.schedule| > 0 && Reflected(LogOf(ms, hs)[k], Some(r.st))
  {
    var e := LogOf(ms, hs)[k];
    LaterRun(ms, hs, r.n);
    assert LogOf(ms, hs[..r.n])[k] == e;
    hide LogOf, RoomAfter, Sent, AddReflected, BuyReflected, StatusOk;
    SentStarts(ms, hs, r);
    if Succeeded(e) && e.req.AddIsu? {
      SeenAdd(ms, hs, k, r);
    } else if Succeeded(e) && e.req.BuyItem? {
      SeenBuy(ms, hs, k, r);
    }
  }

  lemma SentStarts(ms: Masters, hs: seq<Happening>, r: Report)
    requires Sent(ms, hs, r)
    ensures |r.st.schedule| > 0
  {
    var s := RoomAfter(ms, hs[..r.n]);
    StartsAt(ms, r.st, s.adding, s.buying, s.time);
  }

  // ---- The benchmark accepts ----------------------------------------------------------------------------------------

  ghost predicate AllSent(ms: Masters, hs: seq<Happening>, reports: seq<Report>)
  {
    forall k :: 0 <= k < |reports| ==> Sent(ms, hs, reports[k])
  }

  function ShownBy(reports: seq<Report>): seq<GameStatus>
  {
    seq(|reports|, k requires 0 <= k < |reports| => reports[k].st)
  }

  lemma AllSentAreWellFormed(ms: Masters, hs: seq<Happening>, reports: seq<Report>)
    requires FairRun(hs) && AllSent(ms, hs, reports)
    ensures StatusesOk(ms, ShownBy(reports))
  {
    forall k | 0 <= k < |reports| ensures StatusOk(ms, ShownBy(reports)[k]) {
      SentIsWellFormed(ms, hs, reports[k]);
    }
  }

  /** Interval soundness over a whole run: exactly the statuses that go through pass against its log. */
  lemma HonestRunIsAccepted(ms: Masters, hs: seq<Happening>, reports: seq<Report>, d: Dicts)
    requires FairRun(hs) && AllSent(ms, hs, reports) && DictsOf(LogOf(ms, hs), d)
    requires forall k :: 0 <= k < |reports| ==> Undisturbed(ms, hs, reports[k])
    ensures StatusesOk(ms, ShownBy(reports))
    ensures Verdict(ms, false, d, ShownBy(reports))
      <==> forall k :: 0 <= k < |reports| ==> GoesThrough(ms, hs, reports[k], d)
  {
    AllSentAreWellFormed(ms, hs, reports);
    forall k | 0 <= k < |reports| ensures Passes(ms, d, ShownBy(reports)[k]) <==> GoesThrough(ms, hs, reports[k], d) {
      SentVerdict(ms, hs, reports[k], d);
    }
  }

  // ---- The pretest, where every request is answered -----------------------------------------------------------------

  ghost predicate EverythingAnswered(hs: seq<Happening>)
  {
    forall h :: h in hs ==> h.Processed? && h.answered
  }

  lemma {:induction false} EntriesAnswered(ms: Masters, hs: seq<Happening>)
    requires EverythingAnswered(hs)
    ensures forall e :: e in LogOf(ms, hs) ==> e.answered
  {
    if |hs| > 0 {
      assert hs[|hs| - 1] in hs;
      assert forall h :: h in hs[..|hs| - 1] ==> h in hs;
      EntriesAnswered(ms, hs[..|hs| - 1]);
    }
  }

  lemma NothingOpen(log: seq<Entry>, d: Dicts)
    requires DictsOf(log, d) && forall e :: e in log ==> e.answered
    ensures AllAnswered(d)
  {
    forall t: int ensures t !in d.addsOpen {
    }
    SameTable(d.addsOpen, map[]);
    assert Attained(log, d.earliest);
    SameMap(d.earliest, map[]);
    SameMap(d.latest, map[]);
  }

  function FirstCopies(item: int, n: nat): set<Copy> { set k: nat | k < n :: Copy(item, k) }

  lemma {:induction false} FirstCopiesSize(item: int, n: nat)
    ensures |FirstCopies(item, n)| == n
  {
    if n > 0 {
      FirstCopiesSize(item, n - 1);
      assert FirstCopies(item, n) == FirstCopies(item, n - 1) + {Copy(item, n - 1)};
    }
  }

  lemma RowTimesRise(buying: seq<Buying>, item: int, j: nat, k: nat)
    requires InOrdinalOrder(buying) && InTimeOrder(buying) && 1 <= j <= k <= Bought(buying, item)
    ensures RowTime(buying, item, j) <= RowTime(buying, item, k)
  {
    BuiltMeansDated(buying, item, k, RowTime(buying, item, k));
    BuiltMeansDated(buying, item, j, RowTime(buying, item, k));
  }

  lemma ConfirmedIsRow(log: seq<Entry>, d: Dicts, buying: seq<Buying>, q: Copy)
    requires DictsOf(log, d) && InOrdinalOrder(buying) && forall e :: e in log ==> EntryRecorded(e, buying)
    requires q in d.buys && 0 <= q.count
    ensures q.count < Bought(buying, q.item) && d.buys[q] == RowTime(buying, q.item, q.count + 1)
  {
    hide AddsLogged, OpenAddsLogged, OpenBuysLogged, InOrdinalOrder;
    var e :| e in log && Succeeded(e) && Buys(e, q);
    assert EntryRecorded(e, buying);
    CopyOfRow(buying, Buying(q.item, q.count + 1, e.req.time));
  }

  lemma RowIsConfirmed(log: seq<Entry>, d: Dicts, buying: seq<Buying>, item: int, k: nat)
    requires DictsOf(log, d) && InOrdinalOrder(buying) && forall b :: b in buying ==> RowLogged(log, b)
    requires (forall e :: e in log ==> e.answered) && k < Bought(buying, item)
    ensures Copy(item, k) in d.buys
  {
    var b := Buying(item, k + 1, RowTime(buying, item, k + 1));
    RowOfCopy(buying, item, k + 1);
    assert RowLogged(log, b);
    var e :| e in log && e.success && Buys(e, CopyOf(b)) && e.req.time == b.time;
  }

  /** Everything in the log was answered, and its purchases and the table's rows correspond. */
  ghost predicate LogMatchesTable(log: seq<Entry>, buying: seq<Buying>)
  {
    && (forall b :: b in buying ==> RowLogged(log, b))
    && (forall e :: e in log ==> e.answered)
    && (forall e :: e in log ==> EntryRecorded(e, buying))
  }

  lemma ConfirmedExactly(log: seq<Entry>, d: Dicts, buying: seq<Buying>, q: Copy)
    requires DictsOf(log, d) && InOrdinalOrder(buying) && LogMatchesTable(log, buying)
    ensures q in d.buys <==> 0 <= q.count < Bought(buying, q.item)
    ensures q in d.buys ==> d.buys[q] == RowTime(buying, q.item, q.count + 1)
  {
    if q in d.buys {
      ConfirmedIsRow(log, d, buying, q);
    } else if 0 <= q.count < Bought(buying, q.item) {
      RowIsConfirmed(log, d, buying, q.item, q.count);
    }
  }

  lemma ConfirmedCopiesAre(log: seq<Entry>, d: Dicts, buying: seq<Buying>, item: int)
    requires DictsOf(log, d) && InOrdinalOrder(buying) && LogMatchesTable(log, buying)
    ensures CopiesOf(d.buys, item) == FirstCopies(item, Bought(buying, item))
  {
    hide DictsOf, LogMatchesTable, InOrdinalOrder;
    forall q ensures q in CopiesOf(d.buys, item) <==> q in FirstCopies(item, Bought(buying, item)) {
      ConfirmedExactly(log, d, buying, q);
    }
    SameSet(CopiesOf(d.buys, item), FirstCopies(item, Bought(buying, item)));
  }

  lemma ConfirmedTimesAre(log: seq<Entry>, d: Dicts, buying: seq<Buying>, item: int)
    requires DictsOf(log, d) && InOrdinalOrder(buying) && LogMatchesTable(log, buying)
    ensures forall k: nat :: k < Bought(buying, item) ==>
      GetOr(d.buys, Copy(item, k), 0) == RowTimes(buying)(item, k + 1)
  {
    hide DictsOf, LogMatchesTable, InOrdinalOrder;
    forall k: nat | k < Bought(buying, item) ensures GetOr(d.buys, Copy(item, k), 0) == RowTimes(buying)(item, k + 1) {
      ConfirmedExactly(log, d, buying, Copy(item, k));
    }
  }

  lemma OrderedIfRowsAre(d: Dicts, buying: seq<Buying>, item: int)
    requires InOrdinalOrder(buying) && InTimeOrder(buying)
    requires CopiesOf(d.buys, item) == FirstCopies(item, Bought(buying, item))
    requires forall k: nat :: k < Bought(buying, item) ==>
      GetOr(d.buys, Copy(item, k), 0) == RowTimes(buying)(item, k + 1)
    ensures OrderedItem(d.buys, item)
  {
    var n := Bought(buying, item);
    FirstCopiesSize(item, n);
    forall k: nat | k < n ensures Copy(item, k) in d.buys {
      assert Copy(item, k) in FirstCopies(item, n);
    }
    forall j: nat, k: nat | j <= k < n ensures GetOr(d.buys, Copy(item, j), 0) <= GetOr(d.buys, Copy(item, k), 0) {
      RowTimesRise(buying, item, j + 1, k + 1);
    }
  }

  lemma HonestItemIsOrdered(ms: Masters, hs: seq<Happening>, d: Dicts, item: int)
    requires EverythingAnswered(hs) && DictsOf(LogOf(ms, hs), d) && InTimeOrder(RoomAfter(ms, hs).buying)
    ensures OrderedItem(d.buys, item)
  {
    RoomStaysValid(ms, hs);
    RowsAreLogged(ms, hs);
    EntriesAnswered(ms, hs);
    ConfirmedCopiesAre(LogOf(ms, hs), d, RoomAfter(ms, hs).buying, item);
    ConfirmedTimesAre(LogOf(ms, hs), d, RoomAfter(ms, hs).buying, item);
    OrderedIfRowsAre(d, RoomAfter(ms, hs).buying, item);
  }

  /** A pretest that finds the copies of each item numbered in time order has found the table in time order. */
  lemma OrderedMeansInTimeOrder(ms: Masters, log: seq<Entry>, d: Dicts, buying: seq<Buying>)
    requires DictsOf(log, d) && InOrdinalOrder(buying) && LogMatchesTable(log, buying) && KnownItems(ms, buying)
    requires forall i :: i in ms ==> OrderedItem(d.buys, i)
    ensures InTimeOrder(buying)
  {
    hide DictsOf, LogMatchesTable, OrderedItem;
    forall j, k | 0 <= j < k < |buying| && buying[j].item == buying[k].item ensures buying[j].time <= buying[k].time {
      assert buying[j] in buying && buying[k] in buying;
      OrdinalsDiffer(buying, j, k);
      CopyOfRow(buying, buying[j]);
      CopyOfRow(buying, buying[k]);
      OrderedCopies(log, d, buying, buying[j].item, buying[j].ordinal, buying[k].ordinal);
    }
  }

  lemma OrderedCopies(log: seq<Entry>, d: Dicts, buying: seq<Buying>, item: int, j: nat, k: nat)
    requires DictsOf(log, d) && InOrdinalOrder(buying) && LogMatchesTable(log, buying) && OrderedItem(d.buys, item)
    requires 1 <= j <= k <= Bought(buying, item)
    ensures RowTime(buying, item, j) <= RowTime(buying, item, k)
  {
    ConfirmedCopiesAre(log, d, buying, item);
    FirstCopiesSize(item, Bought(buying, item));
    ConfirmedTimesAre(log, d, buying, item);
    hide DictsOf, LogMatchesTable, InOrdinalOrder, RowTime;
    assert GetOr(d.buys, Copy(item, j - 1), 0) == RowTimes(buying)(item, j);
    assert GetOr(d.buys, Copy(item, k - 1), 0) == RowTimes(buying)(item, k);
  }

  lemma HonestLogMatches(ms: Masters, hs: seq<Happening>)
    requires EverythingAnswered(hs)
    ensures LogMatchesTable(LogOf(ms, hs), RoomAfter(ms, hs).buying)
  {
    RowsAreLogged(ms, hs);
    EntriesAnswered(ms, hs);
  }

  /** The pretest finds the copies of each item numbered in time order exactly if the table has them so. */
  lemma OrderedExactly(ms: Masters, hs: seq<Happening>, d: Dicts)
    requires EverythingAnswered(hs) && DictsOf(LogOf(ms, hs), d)
    ensures (forall i :: i in ms ==> OrderedItem(d.buys, i)) <==> InTimeOrder(RoomAfter(ms, hs).buying)
  {
    if InTimeOrder(RoomAfter(ms, hs).buying) {
      forall i | i in ms ensures OrderedItem(d.buys, i) {
        HonestItemIsOrdered(ms, hs, d, i);
      }
    } else if forall i :: i in ms ==> OrderedItem(d.buys, i) {
      RoomStaysValid(ms, hs);
      HonestLogMatches(ms, hs);
      OrderedMeansInTimeOrder(ms, LogOf(ms, hs), d, RoomAfter(ms, hs).buying);
    }
  }

  /**
   The pretest accepts a fully answered run exactly if each item's purchases were dated in the order they were made.
   */
  lemma HonestPretestIsAccepted(ms: Masters, hs: seq<Happening>, reports: seq<Report>, d: Dicts)
    requires FairRun(hs) && EverythingAnswered(hs) && AllSent(ms, hs, reports) && DictsOf(LogOf(ms, hs), d)
    requires forall k :: 0 <= k < |reports| ==> Undisturbed(ms, hs, reports[k])
    ensures StatusesOk(ms, ShownBy(reports)) && LogAcceptable(true, LogOf(ms, hs))
    ensures Verdict(ms, true, d, ShownBy(reports)) <==> InTimeOrder(RoomAfter(ms, hs).buying)
  {
    EntriesAnswered(ms, hs);
    NothingOpen(LogOf(ms, hs), d);
    HonestLogIsAcceptable(ms, hs);
    AllSentAreWellFormed(ms, hs, reports);
    OrderedExactly(ms, hs, d);
    forall k | 0 <= k < |reports| ensures Fits(ms, d, ShownBy(reports)[k]) {
      SentIsAccepted(ms, hs, reports[k], d);
    }
  }

  lemma SentIsAccepted(ms: Masters, hs: seq<Happening>, r: Report, d: Dicts)
    requires FairRun(hs) && Sent(ms, hs, r) && Undisturbed(ms, hs, r) && DictsOf(LogOf(ms, hs), d) && AllAnswered(d)
    ensures |r.st.schedule| > 0 && StatusAccepts(ms, r.st, d)
  {
    var s := RoomAfter(ms, hs[..r.n]);
    SentIsComputed(ms, hs, r);
    LogExplainsEveryState(ms, hs, r.n, d);
    OrderKeepsBuiltFirst(s.buying, s.time, s.time);
    ComputedStatusIsAccepted(ms, r.st, d, s.adding, s.buying, s.time);
  }
}
