/** The log of a whole run, with answered, silent and lost requests, explains every state passed through. */
module HonestRuns {
  import opened BenchCheck
  import opened BenchLog
  import opened Common
  import opened Ledger
  import opened Rooms
  import opened Rows
  import opened Runs
  import opened Soundness
  import opened Sums

  /** A request the room processed, whose answer the client got or did not get; or a request that never arrived. */
  datatype Happening = Processed(event: Event, answered: bool) | Lost(req: Request)

  function Events(hs: seq<Happening>): seq<Event>
  {
    if |hs| == 0 then []
    else Events(hs[..|hs| - 1]) + (if hs[|hs| - 1].Processed? then [hs[|hs| - 1].event] else [])
  }

  function RoomAfter(ms: Masters, hs: seq<Happening>): RoomState { After(ms, EMPTY_ROOM, Events(hs)) }

  /** What one more happening adds to the log.  Views are not requests; `success` is heard only in an answer. */
  function EntryFor(ms: Masters, s: RoomState, h: Happening): seq<Entry>
  {
    match h
    case Processed(e, answered) => if e.req.View? then [] else [Entry(e.req, answered, Accepts(ms, s, e.now, e.req))]
    case Lost(q) => if q.View? then [] else [Entry(q, false, false)]
  }

  function LogOf(ms: Masters, hs: seq<Happening>): seq<Entry>
  {
    if |hs| == 0 then [] else LogOf(ms, hs[..|hs| - 1]) + EntryFor(ms, RoomAfter(ms, hs[..|hs| - 1]), hs[|hs| - 1])
  }

  function NextRoom(ms: Masters, s: RoomState, h: Happening): RoomState
  {
    if h.Processed? then Step(ms, s, h.event.now, h.event.req) else s
  }

  lemma RoomStep(ms: Masters, hs: seq<Happening>)
    requires |hs| > 0
    ensures RoomAfter(ms, hs) == NextRoom(ms, RoomAfter(ms, hs[..|hs| - 1]), hs[|hs| - 1])
  {
    var before := Events(hs[..|hs| - 1]);
    if hs[|hs| - 1].Processed? {
      assert Events(hs)[..|Events(hs)| - 1] == before;
    } else {
      assert Events(hs) == before;
    }
  }

  lemma RoomStaysValid(ms: Masters, hs: seq<Happening>)
    ensures ValidState(ms, RoomAfter(ms, hs))
  {
    RunsStayValid(ms, Events(hs));
  }

  lemma NextRoomGrows(ms: Masters, s: RoomState, h: Happening)
    ensures s.time <= NextRoom(ms, s, h).time && s.buying <= NextRoom(ms, s, h).buying
  {
  }

  lemma {:induction false} LaterRun(ms: Masters, hs: seq<Happening>, n: nat)
    requires n <= |hs|
    ensures LogOf(ms, hs[..n]) <= LogOf(ms, hs)
    ensures RoomAfter(ms, hs[..n]).time <= RoomAfter(ms, hs).time
    ensures RoomAfter(ms, hs[..n]).buying <= RoomAfter(ms, hs).buying
  {
    if n < |hs| {
      var m := |hs| - 1;
      LaterRun(ms, hs[..m], n);
      assert hs[..m][..n] == hs[..n];
      RoomStep(ms, hs);
      NextRoomGrows(ms, RoomAfter(ms, hs[..m]), hs[m]);
      hide NextRoom, EntryFor;
    } else {
      assert hs[..n] == hs;
    }
  }

  // ---- Isu ----------------------------------------------------------------------------------------------------------

  function TookEffect(t: int): Entry -> int { (e: Entry) => if e.success && AddsAt(e, t) then e.req.isu else 0 }

  lemma IsuStep(ms: Masters, s: RoomState, h: Happening, t: int)
    ensures Sum(NextRoom(ms, s, h).adding, IsuAt(t)) == Sum(s.adding, IsuAt(t)) + Sum(EntryFor(ms, s, h), TookEffect(t))
  {
    if h.Processed? && h.event.req.AddIsu? {
      WithIsuTotal(s.adding, h.event.req.isu, h.event.req.time, t);
      SumPush([], Entry(h.event.req, h.answered, Accepts(ms, s, h.event.now, h.event.req)), TookEffect(t));
    }
  }

  /** The table's isu at each time is what the adds that took effect brought. */
  lemma {:induction false} IsuIsLogged(ms: Masters, hs: seq<Happening>, t: int)
    ensures Sum(RoomAfter(ms, hs).adding, IsuAt(t)) == Sum(LogOf(ms, hs), TookEffect(t))
  {
    if |hs| > 0 {
      var m := |hs| - 1;
      IsuIsLogged(ms, hs[..m], t);
      RoomStep(ms, hs);
      IsuStep(ms, RoomAfter(ms, hs[..m]), hs[m], t);
      SumConcat(LogOf(ms, hs[..m]), EntryFor(ms, RoomAfter(ms, hs[..m]), hs[m]), TookEffect(t));
    }
  }

  ghost predicate NoNegativeIsu(hs: seq<Happening>)
  {
    forall h :: h in hs ==>
      && (h.Lost? && h.req.AddIsu? ==> 0 <= h.req.isu)
      && (h.Processed? && h.event.req.AddIsu? ==> 0 <= h.event.req.isu)
  }

  lemma NextNonNegative(ms: Masters, s: RoomState, h: Happening)
    requires NonNegativeIsu(s.adding)
    requires (h.Lost? && h.req.AddIsu? ==> 0 <= h.req.isu)
      && (h.Processed? && h.event.req.AddIsu? ==> 0 <= h.event.req.isu)
    ensures NonNegativeIsu(NextRoom(ms, s, h).adding)
    ensures forall e :: e in EntryFor(ms, s, h) && e.req.AddIsu? ==> 0 <= e.req.isu
  {
  }

  lemma {:induction false} EntriesNonNegative(ms: Masters, hs: seq<Happening>)
    requires NoNegativeIsu(hs)
    ensures forall e :: e in LogOf(ms, hs) && e.req.AddIsu? ==> 0 <= e.req.isu
    ensures NonNegativeIsu(RoomAfter(ms, hs).adding)
  {
    if |hs| > 0 {
      var m := |hs| - 1;
      assert forall h :: h in hs[..m] ==> h in hs;
      EntriesNonNegative(ms, hs[..m]);
      RoomStep(ms, hs);
      assert hs[m] in hs;
      NextNonNegative(ms, RoomAfter(ms, hs[..m]), hs[m]);
      hide NextRoom, EntryFor, NonNegativeIsu;
    }
  }

  // ---- Purchases ----------------------------------------------------------------------------------------------------

  function CopyOf(b: Buying): Copy { Copy(b.item, b.ordinal - 1) }

  ghost predicate RowLogged(log: seq<Entry>, b: Buying)
  {
    exists e :: e in log && e.success && Buys(e, CopyOf(b)) && e.req.time == b.time
  }

  predicate EntryRecorded(e: Entry, buying: seq<Buying>)
  {
    e.success && e.req.BuyItem? ==> Buying(e.req.item, e.req.countBought + 1, e.req.time) in buying
  }

  lemma NewRowIsLogged(ms: Masters, s: RoomState, h: Happening, log: seq<Entry>, b: Buying)
    requires b in NextRoom(ms, s, h).buying && b !in s.buying
    ensures RowLogged(log + EntryFor(ms, s, h), b)
  {
    var e := EntryFor(ms, s, h)[0];
    assert e in log + EntryFor(ms, s, h);
  }

  lemma RecordedStays(ms: Masters, s: RoomState, h: Happening, log: seq<Entry>, e: Entry)
    requires e in log + EntryFor(ms, s, h) && (e in log ==> EntryRecorded(e, s.buying))
    ensures EntryRecorded(e, NextRoom(ms, s, h).buying)
  {
    assert e in log || e in EntryFor(ms, s, h);
  }

  /** Rows and successful purchase requests correspond. */
  lemma {:induction false} RowsAreLogged(ms: Masters, hs: seq<Happening>)
    ensures forall b :: b in RoomAfter(ms, hs).buying ==> RowLogged(LogOf(ms, hs), b)
    ensures forall e :: e in LogOf(ms, hs) ==> EntryRecorded(e, RoomAfter(ms, hs).buying)
  {
    if |hs| > 0 {
      var m := |hs| - 1;
      var s, h := RoomAfter(ms, hs[..m]), hs[m];
      var log := LogOf(ms, hs[..m]);
      RowsAreLogged(ms, hs[..m]);
      RoomStep(ms, hs);
      hide RowLogged, EntryRecorded, NextRoom, EntryFor;
      forall b | b in RoomAfter(ms, hs).buying ensures RowLogged(LogOf(ms, hs), b) {
        if b in s.buying {
        } else {
          NewRowIsLogged(ms, s, h, log, b);
        }
      }
      forall e | e in LogOf(ms, hs) ensures EntryRecorded(e, RoomAfter(ms, hs).buying) {
        RecordedStays(ms, s, h, log, e);
      }
    }
  }

  ghost predicate OneSuccessPerCopy(log: seq<Entry>)
  {
    forall j, k :: 0 <= j < k < |log| ==> !SameCopyTwice(log[j], log[k])
  }

  predicate SameCopyTwice(e: Entry, f: Entry)
  {
    e.success && f.success && e.req.BuyItem? && f.req.BuyItem? && e.req.item == f.req.item
      && e.req.countBought == f.req.countBought
  }

  lemma NewCopyOnly(ms: Masters, s: RoomState, h: Happening, e: Entry, f: Entry)
    requires ValidState(ms, s) && EntryRecorded(e, s.buying) && f in EntryFor(ms, s, h)
    ensures !SameCopyTwice(e, f)
  {
    if SameCopyTwice(e, f) {
      CopyOfRow(s.buying, Buying(e.req.item, e.req.countBought + 1, e.req.time));
    }
  }

  lemma {:induction false} CopiesSucceedOnce(ms: Masters, hs: seq<Happening>)
    ensures OneSuccessPerCopy(LogOf(ms, hs))
  {
    if |hs| > 0 {
      var m := |hs| - 1;
      var s, h := RoomAfter(ms, hs[..m]), hs[m];
      var log, next := LogOf(ms, hs[..m]), EntryFor(ms, s, h);
      CopiesSucceedOnce(ms, hs[..m]);
      RowsAreLogged(ms, hs[..m]);
      RoomStaysValid(ms, hs[..m]);
      forall e, f | e in log && f in next ensures !SameCopyTwice(e, f) {
        NewCopyOnly(ms, s, h, e, f);
      }
      assert |next| <= 1;
    }
  }

  /** The log of a run passes the request loop of the log validation. */
  lemma {:induction false} HonestLogIsAcceptable(ms: Masters, hs: seq<Happening>)
    ensures LogAcceptable(false, LogOf(ms, hs))
  {
    CopiesSucceedOnce(ms, hs);
    NoViews(ms, hs);
  }

  lemma {:induction false} NoViews(ms: Masters, hs: seq<Happening>)
    ensures forall e :: e in LogOf(ms, hs) ==> !e.req.View?
  {
    if |hs| > 0 {
      NoViews(ms, hs[..|hs| - 1]);
    }
  }

  // ---- Requests after a state ---------------------------------------------------------------------------------------

  /** Every processed request carries a time. */
  ghost predicate AllTimed(hs: seq<Happening>)
  {
    forall h :: h in hs && h.Processed? && !h.event.req.View? ==> h.event.req.time != 0
  }

  /** No request dated exactly c is processed after the first n happenings. */
  ghost predicate NoneDatedAt(hs: seq<Happening>, n: nat, c: int)
  {
    forall k :: n <= k < |hs| && hs[k].Processed? && !hs[k].event.req.View? ==> hs[k].event.req.time != c
  }

  lemma EntryIsDatedLater(ms: Masters, s: RoomState, h: Happening, c: int)
    requires c <= s.time
    requires h.Processed? && !h.event.req.View? ==> h.event.req.time != 0 && (c < s.time || h.event.req.time != c)
    ensures forall e :: e in EntryFor(ms, s, h) && e.success ==> c < e.req.time
  {
  }

  ghost predicate DatedLater(log: seq<Entry>, n: nat, c: int)
  {
    forall k :: n <= k < |log| && log[k].success ==> c < log[k].req.time
  }

  /** What takes effect after a state is dated after any earlier time, and after the state's own if none is dated so. */
  lemma {:induction false} LaterIsDatedLater(ms: Masters, hs: seq<Happening>, n: nat, c: int)
    requires n <= |hs| && c <= RoomAfter(ms, hs[..n]).time && AllTimed(hs)
    requires c < RoomAfter(ms, hs[..n]).time || NoneDatedAt(hs, n, c)
    ensures DatedLater(LogOf(ms, hs), |LogOf(ms, hs[..n])|, c)
  {
    if n < |hs| {
      var m := |hs| - 1;
      var s, before := RoomAfter(ms, hs[..m]), LogOf(ms, hs[..m]);
      assert hs[..m][..n] == hs[..n];
      assert forall h :: h in hs[..m] ==> h in hs;
      LaterIsDatedLater(ms, hs[..m], n, c);
      LaterRun(ms, hs[..m], n);
      assert hs[m] in hs;
      EntryIsDatedLater(ms, s, hs[m], c);
      PushDatedLater(before, EntryFor(ms, s, hs[m]), |LogOf(ms, hs[..n])|, c);
    } else {
      assert hs[..n] == hs;
    }
  }

  lemma PushDatedLater(log: seq<Entry>, next: seq<Entry>, n: nat, c: int)
    requires DatedLater(log, n, c) && forall e :: e in next && e.success ==> c < e.req.time
    ensures DatedLater(log + next, n, c)
  {
    forall k | n <= k < |log + next| && (log + next)[k].success ensures c < (log + next)[k].req.time {
      if k >= |log| {
        assert (log + next)[k] in next;
      }
    }
  }

  lemma {:induction false} NothingLater(rest: seq<Entry>, c: int, t: int)
    requires t <= c && forall k :: 0 <= k < |rest| && rest[k].success ==> c < rest[k].req.time
    ensures Sum(rest, TookEffect(t)) == 0
  {
    if |rest| > 0 {
      NothingLater(rest[..|rest| - 1], c, t);
    }
  }

  lemma PartSums(log: seq<Entry>, t: int)
    requires forall e :: e in log && e.req.AddIsu? ==> 0 <= e.req.isu
    ensures 0 <= Sum(log, SucceededIsu(t)) <= Sum(log, TookEffect(t)) <= Sum(log, SucceededIsu(t))
      + Sum(log, OpenIsu(t))
    ensures 0 <= Sum(log, OpenIsu(t))
  {
    forall k | 0 <= k < |log|
      ensures 0 <= SucceededIsu(t)(log[k]) <= TookEffect(t)(log[k]) <= EitherIsu(t)(log[k]) && 0 <= OpenIsu(t)(log[k])
    {
      assert log[k] in log;
    }
    SumNonNegative(log, SucceededIsu(t));
    SumNonNegative(log, OpenIsu(t));
    SumAtMost(log, SucceededIsu(t), TookEffect(t));
    SumAtMost(log, TookEffect(t), EitherIsu(t));
    SumLinear(log, EitherIsu(t), SucceededIsu(t), 1, OpenIsu(t));
  }

  function EitherIsu(t: int): Entry -> int { (e: Entry) => SucceededIsu(t)(e) + OpenIsu(t)(e) }

  // ---- The log explains every state passed through ------------------------------------------------------------------

  ghost predicate AddLogged(log: seq<Entry>, t: int)
  {
    exists e :: e in log && e.success && AddsAt(e, t)
  }

  lemma {:induction false} AddsAreLogged(ms: Masters, hs: seq<Happening>)
    ensures forall a :: a in RoomAfter(ms, hs).adding ==> AddLogged(LogOf(ms, hs), a.time)
  {
    if |hs| > 0 {
      var m := |hs| - 1;
      var s, h := RoomAfter(ms, hs[..m]), hs[m];
      var log, next := LogOf(ms, hs[..m]), EntryFor(ms, s, h);
      AddsAreLogged(ms, hs[..m]);
      RoomStep(ms, hs);
      hide AddLogged, NextRoom, EntryFor;
      forall a | a in RoomAfter(ms, hs).adding ensures AddLogged(log + next, a.time) {
        AddIsLogged(ms, s, h, log, a);
      }
    }
  }

  lemma AddIsLogged(ms: Masters, s: RoomState, h: Happening, log: seq<Entry>, a: Adding)
    requires a in NextRoom(ms, s, h).adding && (a in s.adding ==> AddLogged(log, a.time))
    ensures AddLogged(log + EntryFor(ms, s, h), a.time)
  {
    var next := EntryFor(ms, s, h);
    if a in s.adding {
      var e :| e in log && e.success && AddsAt(e, a.time);
      assert e in log + next;
    } else {
      var q := h.event.req;
      assert a.time == q.time;
      assert Entry(q, h.answered, true) in log + next;
    }
  }

  /** What one time's dictionaries say of the isu that took effect by any point of the log. */
  lemma LoggedAt(log: seq<Entry>, n: nat, d: Dicts, t: int)
    requires n <= |log| && DictsOf(log, d) && forall e :: e in log && e.req.AddIsu? ==> 0 <= e.req.isu
    ensures Sum(log[..n], TookEffect(t)) <= Sum(log, TookEffect(t))
    ensures GetOr(d.adds, t, 0) <= Sum(log, TookEffect(t)) <= GetOr(d.adds, t, 0) + GetOr(d.addsOpen, t, 0)
  {
    var pre, rest := log[..n], log[n..];
    assert log == pre + rest;
    assert forall e :: e in rest ==> e in log;
    SumConcat(pre, rest, TookEffect(t));
    PartSums(rest, t);
    PartSums(log, t);
  }

  /** adding holds, for every time up to c, what the table held of that time in the end. */
  ghost predicate HoldsFinally(ms: Masters, hs: seq<Happening>, adding: seq<Adding>, c: int)
  {
    forall t :: t <= c ==> Sum(adding, IsuAt(t)) == Sum(RoomAfter(ms, hs).adding, IsuAt(t))
  }

  /** The log explains rows that are, up to c, what the run ends with and, after c, what a state held. */
  lemma AddsAreExplained(ms: Masters, hs: seq<Happening>, n: nat, d: Dicts, adding: seq<Adding>, c: int)
    requires n <= |hs| && DictsOf(LogOf(ms, hs), d) && NoNegativeIsu(hs) && HoldsFinally(ms, hs, adding, c)
    requires forall a :: a in adding && c < a.time ==> a in RoomAfter(ms, hs[..n]).adding
    ensures AddsExplained(d, adding, c)
  {
    var s, log, pre := RoomAfter(ms, hs[..n]), LogOf(ms, hs), LogOf(ms, hs[..n]);
    LaterRun(ms, hs, n);
    assert log[..|pre|] == pre;
    EntriesNonNegative(ms, hs);
    RoomStaysValid(ms, hs[..n]);
    AddsAreLogged(ms, hs[..n]);
    hide HoldsFinally, LogOf, RoomAfter, NonNegativeIsu, DictsOf;
    forall t | t <= c
      ensures GetOr(d.adds, t, 0) <= Sum(adding, IsuAt(t)) <= GetOr(d.adds, t, 0) + GetOr(d.addsOpen, t, 0)
    {
      FinalIsuAt(ms, hs, adding, c, t);
      LoggedAt(log, |pre|, d, t);
    }
    forall a | a in adding && c < a.time ensures AddPossible(d, a) {
      TableValues(s.adding, a.time);
      IsuIsLogged(ms, hs[..n], a.time);
      LoggedAt(log, |pre|, d, a.time);
      LoggedAddIsPossible(log, |pre|, d, a);
    }
  }

  lemma FinalIsuAt(ms: Masters, hs: seq<Happening>, adding: seq<Adding>, c: int, t: int)
    requires HoldsFinally(ms, hs, adding, c) && t <= c
    ensures Sum(adding, IsuAt(t)) == Sum(LogOf(ms, hs), TookEffect(t))
  {
    IsuIsLogged(ms, hs, t);
  }

  lemma LoggedAddIsPossible(log: seq<Entry>, n: nat, d: Dicts, a: Adding)
    requires n <= |log| && DictsOf(log, d) && AddLogged(log[..n], a.time)
    requires a.isu <= GetOr(d.adds, a.time, 0) + GetOr(d.addsOpen, a.time, 0)
    ensures AddPossible(d, a)
  {
    var e :| e in log[..n] && e.success && AddsAt(e, a.time);
    assert e in log;
  }

  lemma RowIsExplained(log: seq<Entry>, n: nat, d: Dicts, b: Buying)
    requires n <= |log| && DictsOf(log, d) && OneSuccessPerCopy(log) && 1 <= b.ordinal && RowLogged(log[..n], b)
    ensures RowExplained(d, b)
  {
    var e :| e in log[..n] && e.success && Buys(e, CopyOf(b)) && e.req.time == b.time;
    assert e in log;
  }

  lemma RowsAreExplained(ms: Masters, hs: seq<Happening>, n: nat, d: Dicts)
    requires n <= |hs| && DictsOf(LogOf(ms, hs), d)
    ensures forall b :: b in RoomAfter(ms, hs[..n]).buying ==> RowExplained(d, b)
  {
    var buying, log, pre := RoomAfter(ms, hs[..n]).buying, LogOf(ms, hs), LogOf(ms, hs[..n]);
    LaterRun(ms, hs, n);
    assert log[..|pre|] == pre;
    RoomStaysValid(ms, hs[..n]);
    RowsAreLogged(ms, hs[..n]);
    CopiesSucceedOnce(ms, hs);
    forall b | b in buying ensures RowExplained(d, b) {
      CopyOfRow(buying, b);
      RowIsExplained(log, |pre|, d, b);
    }
  }

  /** If a copy is bought next after the first n happenings, it is dated after the state they leave. */
  ghost predicate NextCopyIsLater(ms: Masters, hs: seq<Happening>, n: nat)
    requires n <= |hs|
  {
    var s := RoomAfter(ms, hs[..n]);
    forall b :: b in RoomAfter(ms, hs).buying && b.ordinal == Bought(s.buying, b.item) + 1 ==> s.time < b.time
  }

  lemma BuysAreExplained(ms: Masters, hs: seq<Happening>, n: nat, d: Dicts)
    requires n <= |hs| && DictsOf(LogOf(ms, hs), d) && NextCopyIsLater(ms, hs, n)
    ensures BuysExplained(d, RoomAfter(ms, hs[..n]).buying, RoomAfter(ms, hs[..n]).time)
  {
    var s := RoomAfter(ms, hs[..n]);
    RowsAreExplained(ms, hs, n, d);
    hide NextCopyIsLater, RoomAfter, LogOf, DictsOf, Bought;
    forall q | q in d.buys && q.count == Bought(s.buying, q.item) ensures s.time < d.buys[q] {
      RowsAreLogged(ms, hs);
      ConfirmedIsRecorded(LogOf(ms, hs), RoomAfter(ms, hs).buying, d, q);
      NextRowIsLater(ms, hs, n, Buying(q.item, q.count + 1, d.buys[q]));
    }
  }

  lemma ConfirmedIsRecorded(log: seq<Entry>, buying: seq<Buying>, d: Dicts, q: Copy)
    requires DictsOf(log, d) && q in d.buys && 0 <= q.count && forall e :: e in log ==> EntryRecorded(e, buying)
    ensures Buying(q.item, q.count + 1, d.buys[q]) in buying
  {
    var e :| e in log && Succeeded(e) && Buys(e, q);
    assert EntryRecorded(e, buying);
  }

  lemma NextRowIsLater(ms: Masters, hs: seq<Happening>, n: nat, b: Buying)
    requires n <= |hs| && NextCopyIsLater(ms, hs, n)
    requires b in RoomAfter(ms, hs).buying && b.ordinal == Bought(RoomAfter(ms, hs[..n]).buying, b.item) + 1
    ensures RoomAfter(ms, hs[..n]).time < b.time
  {
  }

  // ---- Without later requests of the state's time -------------------------------------------------------------------

  lemma UncountedIsLater(log: seq<Entry>, n: nat, buying: seq<Buying>, c: int, e: Entry)
    requires n <= |log| && DatedLater(log, n, c) && InOrdinalOrder(buying)
    requires forall f :: f in log[..n] ==> EntryRecorded(f, buying)
    requires e in log && e.success && e.req.BuyItem? && Bought(buying, e.req.item) <= e.req.countBought
    ensures c < e.req.time
  {
    var k :| 0 <= k < |log| && log[k] == e;
    if k < n {
      assert log[..n][k] == e && e in log[..n];
      assert EntryRecorded(e, buying);
      CopyOfRow(buying, Buying(e.req.item, e.req.countBought + 1, e.req.time));
    }
  }

  lemma NextIsLater(ms: Masters, hs: seq<Happening>, n: nat)
    requires n <= |hs| && AllTimed(hs) && NoneDatedAt(hs, n, RoomAfter(ms, hs[..n]).time)
    ensures NextCopyIsLater(ms, hs, n)
  {
    var s, log, pre := RoomAfter(ms, hs[..n]), LogOf(ms, hs), LogOf(ms, hs[..n]);
    LaterRun(ms, hs, n);
    assert log[..|pre|] == pre;
    RoomStaysValid(ms, hs[..n]);
    RowsAreLogged(ms, hs[..n]);
    RowsAreLogged(ms, hs);
    LaterIsDatedLater(ms, hs, n, s.time);
    forall b | b in RoomAfter(ms, hs).buying && b.ordinal == Bought(s.buying, b.item) + 1 ensures s.time < b.time {
      var e :| e in log && e.success && Buys(e, CopyOf(b)) && e.req.time == b.time;
      UncountedIsLater(log, |pre|, s.buying, s.time, e);
    }
  }

  /** Of the times before c the table held in the end what it held after n happenings. */
  lemma EarlierIsFinal(ms: Masters, hs: seq<Happening>, n: nat, c: int)
    requires n <= |hs| && AllTimed(hs) && c <= RoomAfter(ms, hs[..n]).time
    requires c < RoomAfter(ms, hs[..n]).time || NoneDatedAt(hs, n, c)
    ensures HoldsFinally(ms, hs, RoomAfter(ms, hs[..n]).adding, c)
  {
    var log, pre := LogOf(ms, hs), LogOf(ms, hs[..n]);
    LaterRun(ms, hs, n);
    LaterIsDatedLater(ms, hs, n, c);
    var rest := log[|pre|..];
    assert log == pre + rest;
    hide LogOf, RoomAfter;
    forall t | t <= c ensures Sum(RoomAfter(ms, hs[..n]).adding, IsuAt(t)) == Sum(RoomAfter(ms, hs).adding, IsuAt(t)) {
      IsuIsLogged(ms, hs[..n], t);
      IsuIsLogged(ms, hs, t);
      SumConcat(pre, rest, TookEffect(t));
      NothingLater(rest, c, t);
    }
  }

  /**
   Whatever was answered, processed silently or lost, the dictionaries of a run's log explain the tables at every state
   after which no request of the state's own time is processed.
   */
  lemma LogExplainsEveryState(ms: Masters, hs: seq<Happening>, n: nat, d: Dicts)
    requires n <= |hs| && DictsOf(LogOf(ms, hs), d)
    requires NoNegativeIsu(hs) && AllTimed(hs) && NoneDatedAt(hs, n, RoomAfter(ms, hs[..n]).time)
    ensures Explains(d, RoomAfter(ms, hs[..n]).adding, RoomAfter(ms, hs[..n]).buying, RoomAfter(ms, hs[..n]).time)
  {
    var s := RoomAfter(ms, hs[..n]);
    NextIsLater(ms, hs, n);
    BuysAreExplained(ms, hs, n, d);
    EarlierIsFinal(ms, hs, n, s.time);
    AddsAreExplained(ms, hs, n, d, s.adding, s.time);
  }
}
