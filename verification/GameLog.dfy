/**
 validateGameLog: every confirmed request must show in the status the client saw, and every status must fit the log.
 */
module GameLog {
  import opened BenchCheck
  import opened BenchLog
  import opened Common
  import opened Exponents
  import opened Format
  import opened Ledger
  import opened Rooms
  import opened Status
  import opened StatusCheck
  import opened Sums

  // ---- The status a response is held against ------------------------------------------------------------------------

  /** A status with the client's clock when it came in. */
  datatype Received = Received(clientTime: int, st: GameStatus)

  predicate InSpan(x: Received, t1: int, t2: int) { t1 <= x.clientTime <= t2 }

  function StatusTime(x: Received): int { if |x.st.schedule| > 0 then x.st.schedule[0].time else 0 }

  /** Of the statuses received in [t1, t2], the last one with the greatest status time. */
  ghost predicate IsLatest(list: seq<Received>, t1: int, t2: int, idx: int)
  {
    if idx < 0 then forall k :: 0 <= k < |list| ==> !InSpan(list[k], t1, t2)
    else
      && idx < |list| && InSpan(list[idx], t1, t2)
      && (forall k :: 0 <= k < |list| && InSpan(list[k], t1, t2) ==> StatusTime(list[k]) <= StatusTime(list[idx]))
      && (forall k :: idx < k < |list| && InSpan(list[k], t1, t2) ==> StatusTime(list[k]) < StatusTime(list[idx]))
  }

  function LatestIdx(list: seq<Received>, t1: int, t2: int): (idx: int)
    ensures -1 <= idx < |list| && IsLatest(list, t1, t2, idx)
  {
    if |list| == 0 then -1
    else
      var n := |list| - 1;
      var idx := LatestIdx(list[..n], t1, t2);
      if InSpan(list[n], t1, t2) && (idx < 0 || StatusTime(list[idx]) <= StatusTime(list[n])) then n else idx
  }

  function Latest(list: seq<Received>, t1: int, t2: int): Option<GameStatus>
  {
    var idx := LatestIdx(list, t1, t2);
    if idx < 0 then None else Some(list[idx].st)
  }

  method GetLatestStatus(list: seq<Received>, t1: int, t2: int) returns (r: Option<GameStatus>, idx: int)
    requires forall k :: 0 <= k < |list| ==> |list[k].st.schedule| > 0
    ensures idx == LatestIdx(list, t1, t2) && IsLatest(list, t1, t2, idx)
    ensures r == Latest(list, t1, t2)
  {
    idx := -1;
    var t := 0;
    for i := 0 to |list|
      invariant idx == LatestIdx(list[..i], t1, t2) && (idx >= 0 ==> t == StatusTime(list[idx]))
    {
      assert list[..i + 1][..i] == list[..i];
      var x := list[i];
      if t1 <= x.clientTime && x.clientTime <= t2 {
        if idx < 0 || x.st.schedule[0].time >= t {
          t := x.st.schedule[0].time;
          idx := i;
        }
      }
    }
    assert list[..|list|] == list;
    r := if idx < 0 then None else Some(list[idx].st);
  }

  /** When statuses come in with nondecreasing times, the one taken came in no earlier than any other in the span. */
  lemma LatestIsLast(list: seq<Received>, t1: int, t2: int, idx: int, k: nat)
    requires forall i, j :: 0 <= i < j < |list| ==> StatusTime(list[i]) <= StatusTime(list[j])
    requires IsLatest(list, t1, t2, idx) && k < |list| && InSpan(list[k], t1, t2)
    ensures k <= idx < |list|
  {
  }

  // ---- The logs of statuses and requests ----------------------------------------------------------------------------

  /** A received status in the room's log, with the client that received it. */
  datatype StatusLog = StatusLog(client: int, clientTime: int, st: GameStatus)

  /** A request with its client and, by that client's clock, when it was sent and when its response came in. */
  datatype RequestLog = RequestLog(client: int, sent: int, heard: int, e: Entry)

  function StatusesOf(statuses: seq<StatusLog>): seq<GameStatus>
  {
    seq(|statuses|, k requires 0 <= k < |statuses| => statuses[k].st)
  }

  function EntriesOf(log: seq<RequestLog>): seq<Entry> { seq(|log|, k requires 0 <= k < |log| => log[k].e) }

  /** The statuses a client received, in the order of the log. */
  function ReceivedBy(statuses: seq<StatusLog>, client: int): seq<Received>
  {
    if |statuses| == 0 then []
    else
      var x, rest := statuses[|statuses| - 1], ReceivedBy(statuses[..|statuses| - 1], client);
      if x.client == client then rest + [Received(x.clientTime, x.st)] else rest
  }

  function InsertByTime(list: seq<Received>, x: Received): seq<Received>
  {
    var n := |list| - 1;
    if n < 0 || list[n].clientTime <= x.clientTime then list + [x] else InsertByTime(list[..n], x) + [list[n]]
  }

  /** Sorting by the client's clock, keeping the order of equal times. */
  function SortedByTime(list: seq<Received>): seq<Received>
  {
    if |list| == 0 then [] else InsertByTime(SortedByTime(list[..|list| - 1]), list[|list| - 1])
  }

  ghost predicate InClockOrder(list: seq<Received>)
  {
    forall i, j :: 0 <= i < j < |list| ==> list[i].clientTime <= list[j].clientTime
  }

  lemma {:induction false} InsertedHolds(list: seq<Received>, x: Received)
    ensures multiset(InsertByTime(list, x)) == multiset(list) + multiset{x}
    ensures forall y :: y in InsertByTime(list, x) <==> y in list || y == x
  {
    var n := |list| - 1;
    if 0 <= n && x.clientTime < list[n].clientTime {
      InsertedHolds(list[..n], x);
      assert list == list[..n] + [list[n]];
    }
  }

  lemma {:induction false} InsertedByTime(list: seq<Received>, x: Received)
    requires InClockOrder(list)
    ensures InClockOrder(InsertByTime(list, x)) && multiset(InsertByTime(list, x)) == multiset(list) + multiset{x}
    ensures forall y :: y in InsertByTime(list, x) <==> y in list || y == x
  {
    InsertedHolds(list, x);
    var n := |list| - 1;
    if 0 <= n && x.clientTime < list[n].clientTime {
      InsertedByTime(list[..n], x);
      InsertedHolds(list[..n], x);
      var rest := InsertByTime(list[..n], x);
      forall i | 0 <= i < |rest| ensures rest[i].clientTime <= list[n].clientTime {
        assert rest[i] in rest;
      }
    }
  }

  /** Sorting lists the same statuses by the client's clock. */
  lemma {:induction false} SortingSorts(list: seq<Received>)
    ensures InClockOrder(SortedByTime(list)) && multiset(SortedByTime(list)) == multiset(list)
  {
    if |list| > 0 {
      var n := |list| - 1;
      SortingSorts(list[..n]);
      InsertedByTime(SortedByTime(list[..n]), list[n]);
      assert list == list[..n] + [list[n]];
    }
  }

  lemma LastStaysOrdered(list: seq<Received>)
    requires |list| > 0 && InClockOrder(list)
    ensures InClockOrder(list[..|list| - 1])
    ensures |list| > 1 ==> list[|list| - 2].clientTime <= list[|list| - 1].clientTime
  {
  }

  /** A list that arrived in order stays as it is. */
  lemma {:induction false} SortedStays(list: seq<Received>)
    requires InClockOrder(list)
    ensures SortedByTime(list) == list
  {
    if |list| > 0 {
      var n := |list| - 1;
      hide InClockOrder;
      assert InClockOrder(list[..n]) && (n > 0 ==> list[n - 1].clientTime <= list[n].clientTime) by {
        LastStaysOrdered(list);
      }
      SortedStays(list[..n]);
      assert list == list[..n] + [list[n]];
    }
  }

  function Inbox(statuses: seq<StatusLog>, client: int): seq<Received> { SortedByTime(ReceivedBy(statuses, client)) }

  /** The status a request's outcome is held against. */
  function SeenBy(statuses: seq<StatusLog>, q: RequestLog): Option<GameStatus>
  {
    Latest(Inbox(statuses, q.client), q.sent, q.heard)
  }

  /** The statuses by client, each client's sorted by its clock. */
  method SortStatuses(statuses: seq<StatusLog>) returns (statusDict: map<int, seq<Received>>)
    ensures forall c :: GetOr(statusDict, c, []) == Inbox(statuses, c)
  {
    statusDict := map[];
    for k := 0 to |statuses|
      invariant forall c :: GetOr(statusDict, c, []) == ReceivedBy(statuses[..k], c)
    {
      assert statuses[..k + 1][..k] == statuses[..k];
      var x := statuses[k];
      statusDict := statusDict[x.client := GetOr(statusDict, x.client, []) + [Received(x.clientTime, x.st)]];
    }
    assert statuses[..|statuses|] == statuses;
    var unsorted := statusDict;
    statusDict := map c | c in unsorted :: SortedByTime(unsorted[c]);
    forall c ensures GetOr(statusDict, c, []) == Inbox(statuses, c) {
      assert GetOr(unsorted, c, []) == ReceivedBy(statuses, c);
    }
  }

  // ---- Reflected requests -------------------------------------------------------------------------------------------

  predicate FirstAddIs(list: seq<Adding>, time: int, k: nat)
  {
    k < |list| && list[k].time == time && forall j :: 0 <= j < k ==> list[j].time != time
  }

  ghost predicate AddAnnounced(list: seq<Adding>, time: int, isu: int)
  {
    exists k: nat :: FirstAddIs(list, time, k) && isu <= list[k].isu
  }

  ghost predicate Scheduled(s: seq<ScheduleEntry>, time: int) { exists k :: 0 < k < |s| && s[k].time == time }

  /** An add dated after the status is announced with at least its isu, and has a later schedule entry. */
  ghost predicate AddReflected(st: GameStatus, time: int, isu: int)
    requires |st.schedule| > 0
  {
    st.schedule[0].time < time ==>
      AddAnnounced(st.adding, time, isu) && Scheduled(st.schedule, time)
  }

  method FindAdd(list: seq<Adding>, time: int, isu: int) returns (ok: bool)
    ensures ok <==> AddAnnounced(list, time, isu)
  {
    for k := 0 to |list|
      invariant forall j :: 0 <= j < k ==> list[j].time != time
    {
      if list[k].time == time {
        assert FirstAddIs(list, time, k);
        assert forall j: nat :: FirstAddIs(list, time, j) ==> j == k;
        return isu <= list[k].isu;
      }
    }
    return false;
  }

  method ValidateAddIsu(time: int, isu: int, st: GameStatus) returns (ok: bool)
    requires |st.schedule| > 0
    ensures ok <==> AddReflected(st, time, isu)
  {
    if time > st.schedule[0].time {
      var found := FindAdd(st.adding, time, isu);
      if !found {
        return false;
      }
      var idx := -1;
      for i := 0 to |st.schedule|
        invariant -1 <= idx < i
        invariant idx >= 0 ==> st.schedule[idx].time == time
        invariant forall j :: 0 <= j < i && st.schedule[j].time == time ==> j <= idx
      {
        if st.schedule[i].time == time {
          idx := i;
        }
      }
      if idx <= 0 {
        return false;
      }
    }
    return true;
  }

  ghost predicate BuyReflected(st: GameStatus, item: int, countBought: nat)
  {
    forall k :: 0 <= k < |st.items| && st.items[k].itemId == item ==> countBought <= st.items[k].countBought
  }

  method ValidateBuyItem(item: int, countBought: nat, st: GameStatus) returns (ok: bool)
    ensures ok <==> BuyReflected(st, item, countBought)
  {
    for k := 0 to |st.items|
      invariant forall j :: 0 <= j < k && st.items[j].itemId == item ==> countBought <= st.items[j].countBought
    {
      if st.items[k].itemId == item {
        if st.items[k].countBought < countBought {
          return false;
        }
      }
    }
    return true;
  }

  ghost predicate Reflected(e: Entry, seen: Option<GameStatus>)
  {
    Succeeded(e) ==>
      && seen.Some? && |seen.value.schedule| > 0
      && match e.req
         case AddIsu(isu, time) => AddReflected(seen.value, time, isu)
         case BuyItem(item, n, time) => BuyReflected(seen.value, item, n)
         case View(_) => true
  }

  method CheckReflected(e: Entry, seen: Option<GameStatus>) returns (ok: bool)
    requires seen.Some? ==> |seen.value.schedule| > 0
    ensures ok <==> Reflected(e, seen)
  {
    if !Succeeded(e) {
      return true;
    }
    if seen.None? {
      return false;
    }
    match e.req {
      case AddIsu(isu, time) =>
        ok := ValidateAddIsu(time, isu, seen.value);
      case BuyItem(item, n, time) =>
        ok := ValidateBuyItem(item, n, seen.value);
      case View(_) =>
        ok := true;
    }
  }

  // ---- Refused requests ---------------------------------------------------------------------------------------------

  lemma {:induction false} ReceivedAre(statuses: seq<StatusLog>, client: int, x: Received)
    ensures x in ReceivedBy(statuses, client) <==> StatusLog(client, x.clientTime, x.st) in statuses
  {
    if |statuses| > 0 {
      var n := |statuses| - 1;
      ReceivedAre(statuses[..n], client, x);
      assert statuses == statuses[..n] + [statuses[n]];
    }
  }

  lemma InboxHolds(statuses: seq<StatusLog>, client: int, x: Received)
    ensures x in Inbox(statuses, client) <==> StatusLog(client, x.clientTime, x.st) in statuses
  {
    ReceivedAre(statuses, client, x);
    SortingSorts(ReceivedBy(statuses, client));
    assert x in multiset(Inbox(statuses, client)) <==> x in multiset(ReceivedBy(statuses, client));
  }

  /** A request is held against a status its client received in the span, of the greatest time, if there is any. */
  lemma SeenIsReceived(statuses: seq<StatusLog>, q: RequestLog)
    ensures SeenBy(statuses, q).None? <==>
      forall x :: x in statuses && x.client == q.client ==> !(q.sent <= x.clientTime <= q.heard)
    ensures SeenBy(statuses, q).Some? ==> exists x ::
      && x in statuses && x.client == q.client && q.sent <= x.clientTime <= q.heard && x.st == SeenBy(statuses, q).value
      && forall y :: y in statuses && y.client == q.client && q.sent <= y.clientTime <= q.heard ==>
        |x.st.schedule| > 0 && |y.st.schedule| > 0 ==> y.st.schedule[0].time <= x.st.schedule[0].time
  {
    var list := Inbox(statuses, q.client);
    var idx := LatestIdx(list, q.sent, q.heard);
    hide LatestIdx, Inbox;
    forall x | x in statuses && x.client == q.client && q.sent <= x.clientTime <= q.heard
      ensures exists k :: 0 <= k < |list| && InSpan(list[k], q.sent, q.heard) && list[k].st == x.st
    {
      InboxHolds(statuses, q.client, Received(x.clientTime, x.st));
      var k :| 0 <= k < |list| && list[k] == Received(x.clientTime, x.st);
    }
    if idx >= 0 {
      InboxHolds(statuses, q.client, list[idx]);
      assert StatusLog(q.client, list[idx].clientTime, list[idx].st) in statuses;
    }
  }

  /** What a status says against a request it should reflect. */
  ghost predicate Denies(st: GameStatus, q: Request)
  {
    match q
    case AddIsu(isu, time) =>
      && |st.schedule| > 0 && st.schedule[0].time < time
      && (Understates(st.adding, isu, time) || forall p :: p in st.schedule[1..] ==> p.time != time)
    case BuyItem(item, n, _) => exists x :: x in st.items && x.itemId == item && x.countBought < n
    case View(_) => false
  }

  /** The list announces no add of that time, or the first it announces is of less isu. */
  ghost predicate Understates(list: seq<Adding>, isu: int, time: int)
  {
    forall k :: 0 <= k < |list| && list[k].time == time && isu <= list[k].isu ==>
      exists j :: 0 <= j < k && list[j].time == time
  }

  lemma DeniedIsUnreflected(e: Entry, st: GameStatus)
    requires e.answered && e.success && |st.schedule| > 0
    ensures Reflected(e, Some(st)) <==> !Denies(st, e.req)
  {
    match e.req {
      case AddIsu(isu, time) =>
        AnnouncedUnlessUnderstated(st.adding, time, isu);
        assert Scheduled(st.schedule, time) <==> exists p :: p in st.schedule[1..] && p.time == time by {
          if Scheduled(st.schedule, time) {
            var k :| 0 < k < |st.schedule| && st.schedule[k].time == time;
            assert st.schedule[1..][k - 1] == st.schedule[k];
          }
        }
      case BuyItem(item, n, _) =>
        if Denies(st, e.req) {
          var x :| x in st.items && x.itemId == item && x.countBought < n;
          var k :| 0 <= k < |st.items| && st.items[k] == x;
        }
      case View(_) =>
    }
  }

  lemma AnnouncedUnlessUnderstated(list: seq<Adding>, time: int, isu: int)
    ensures AddAnnounced(list, time, isu) <==> !Understates(list, isu, time)
  {
    if !Understates(list, isu, time) {
      var k: nat :| k < |list| && list[k].time == time && isu <= list[k].isu
        && forall j :: 0 <= j < k ==> list[j].time != time;
      assert FirstAddIs(list, time, k);
    }
  }

  /**
   A log is refused if some confirmed request is denied by every status its client received between sending it and
   hearing back: none was received, or an add is announced with less, or not scheduled, or the item counts less.
   */
  lemma DeniedIsRefused(statuses: seq<StatusLog>, log: seq<RequestLog>, j: nat)
    requires j < |log| && log[j].e.answered && log[j].e.success
    requires forall x ::
      x in statuses && x.client == log[j].client && log[j].sent <= x.clientTime <= log[j].heard ==>
        |x.st.schedule| > 0 && Denies(x.st, log[j].e.req)
    ensures !AllReflected(statuses, log)
  {
    hide Denies;
    SeenIsReceived(statuses, log[j]);
    if SeenBy(statuses, log[j]).Some? {
      DeniedIsUnreflected(log[j].e, SeenBy(statuses, log[j]).value);
    }
  }

  // ---- The pretest's check of the purchases -------------------------------------------------------------------------

  function CopiesOf(buys: map<Copy, int>, item: int): set<Copy> { set q | q in buys && q.item == item }

  /** The item's logged copies are numbered without gaps, in time order. */
  ghost predicate OrderedItem(buys: map<Copy, int>, item: int)
  {
    var n := |CopiesOf(buys, item)|;
    && (forall i: nat :: i < n ==> Copy(item, i) in buys)
    && (forall i: nat, j: nat :: i <= j < n ==> GetOr(buys, Copy(item, i), 0) <= GetOr(buys, Copy(item, j), 0))
  }

  method CheckItemOrder(buys: map<Copy, int>, item: int) returns (ok: bool)
    ensures ok <==> OrderedItem(buys, item)
  {
    var n := |CopiesOf(buys, item)|;
    for i := 0 to n
      invariant forall j: nat :: j < i ==> Copy(item, j) in buys
    {
      if Copy(item, i) !in buys {
        return false;
      }
    }
    for i := 1 to if n == 0 then 1 else n
      invariant forall j: nat, k: nat :: j <= k < i && k < n ==>
        GetOr(buys, Copy(item, j), 0) <= GetOr(buys, Copy(item, k), 0)
    {
      if buys[Copy(item, i - 1)] > buys[Copy(item, i)] {
        assert GetOr(buys, Copy(item, i), 0) < GetOr(buys, Copy(item, i - 1), 0);
        return false;
      }
    }
    return true;
  }

  method CheckOrder(ms: Masters, buys: map<Copy, int>) returns (ok: bool)
    ensures ok <==> forall i :: i in ms ==> OrderedItem(buys, i)
  {
    var ids := Listing(ms.Keys);
    for k := 0 to |ids|
      invariant forall j :: 0 <= j < k ==> OrderedItem(buys, ids[j])
    {
      assert ids[k] in ids;
      ok := CheckItemOrder(buys, ids[k]);
      if !ok {
        return;
      }
    }
    forall i | i in ms ensures OrderedItem(buys, i) {
      assert i in ids;
    }
    return true;
  }

  // ---- The whole validation -----------------------------------------------------------------------------------------

  ghost predicate AllReflected(statuses: seq<StatusLog>, log: seq<RequestLog>)
  {
    forall k :: 0 <= k < |log| ==> Reflected(log[k].e, SeenBy(statuses, log[k]))
  }

  /** Every status came through the format check, and its times leave room for a window. */
  ghost predicate StatusesOk(ms: Masters, statuses: seq<GameStatus>)
  {
    forall k {:trigger StatusOk(ms, statuses[k])} :: 0 <= k < |statuses| ==> StatusOk(ms, statuses[k])
  }

  ghost predicate StatusOk(ms: Masters, st: GameStatus)
  {
    FormatOk(ms, st) && -INT64_BOUND <= st.schedule[0].time && st.schedule[0].time + 1000 < INT64_BOUND
  }

  lemma {:induction false} ReceivedAreLogged(ms: Masters, statuses: seq<StatusLog>, client: int)
    requires StatusesOk(ms, StatusesOf(statuses))
    ensures forall x :: x in ReceivedBy(statuses, client) ==> |x.st.schedule| > 0
  {
    if |statuses| > 0 {
      var n := |statuses| - 1;
      assert StatusOk(ms, StatusesOf(statuses)[n]);
      forall k | 0 <= k < n ensures StatusOk(ms, StatusesOf(statuses[..n])[k]) {
        assert StatusOk(ms, StatusesOf(statuses)[k]);
      }
      ReceivedAreLogged(ms, statuses[..n], client);
    }
  }

  lemma InboxIsWellFormed(ms: Masters, statuses: seq<StatusLog>, client: int)
    requires StatusesOk(ms, StatusesOf(statuses))
    ensures forall k :: 0 <= k < |Inbox(statuses, client)| ==> |Inbox(statuses, client)[k].st.schedule| > 0
  {
    ReceivedAreLogged(ms, statuses, client);
    SortingSorts(ReceivedBy(statuses, client));
    forall k | 0 <= k < |Inbox(statuses, client)| ensures |Inbox(statuses, client)[k].st.schedule| > 0 {
      assert Inbox(statuses, client)[k] in multiset(Inbox(statuses, client));
    }
  }

  method CheckRequests(ghost ms: Masters, ghost statuses: seq<StatusLog>, statusDict: map<int, seq<Received>>,
                       log: seq<RequestLog>)
    returns (ok: bool)
    requires StatusesOk(ms, StatusesOf(statuses)) && forall c :: GetOr(statusDict, c, []) == Inbox(statuses, c)
    ensures ok <==> AllReflected(statuses, log)
  {
    hide StatusesOk;
    for k := 0 to |log|
      invariant forall j :: 0 <= j < k ==> Reflected(log[j].e, SeenBy(statuses, log[j]))
    {
      var q := log[k];
      var list := GetOr(statusDict, q.client, []);
      assert list == Inbox(statuses, q.client);
      InboxIsWellFormed(ms, statuses, q.client);
      var seen, _ := GetLatestStatus(list, q.sent, q.heard);
      ok := CheckReflected(q.e, seen);
      if !ok {
        return;
      }
    }
    return true;
  }

  method CheckStatus(ms: Masters, d: Dicts, st: GameStatus) returns (ok: bool)
    requires StatusOk(ms, st)
    ensures ok <==> Fits(ms, d, st)
  {
    ok := ValidateStatus(ms, st, d);
  }

  method CheckStatuses(ms: Masters, d: Dicts, statuses: seq<GameStatus>) returns (ok: bool)
    requires StatusesOk(ms, statuses)
    ensures ok <==> AllAccepted(ms, d, statuses)
  {
    hide StatusOk, Fits;
    for k := 0 to |statuses|
      invariant forall j :: 0 <= j < k ==> Fits(ms, d, statuses[j])
    {
      ok := CheckStatus(ms, d, statuses[k]);
      if !ok {
        return;
      }
    }
    return true;
  }

  method CheckPretest(ms: Masters, d: Dicts, statuses: seq<GameStatus>) returns (ok: bool)
    requires StatusesOk(ms, statuses)
    ensures ok <==> (forall i :: i in ms ==> OrderedItem(d.buys, i)) && AllAccepted(ms, d, statuses)
  {
    ok := CheckOrder(ms, d.buys);
    if !ok {
      return;
    }
    ok := CheckStatuses(ms, d, statuses);
  }

  ghost predicate Fits(ms: Masters, d: Dicts, st: GameStatus) { |st.schedule| > 0 && StatusAccepts(ms, st, d) }
  ghost predicate Passes(ms: Masters, d: Dicts, st: GameStatus) { |st.schedule| > 0 && BenchVerdict(ms, st, d) }

  ghost predicate AllAccepted(ms: Masters, d: Dicts, statuses: seq<GameStatus>)
  {
    forall k :: 0 <= k < |statuses| ==> Fits(ms, d, statuses[k])
  }

  ghost predicate AllPass(ms: Masters, d: Dicts, statuses: seq<GameStatus>)
  {
    forall k :: 0 <= k < |statuses| ==> Passes(ms, d, statuses[k])
  }

  /** The sorted keys and prefix sums of confirmed and of open adds, shared by all statuses. */
  datatype PrefixTables = PrefixTables(keys: seq<int>, sums: map<int, int>, openKeys: seq<int>, openSums: map<int, int>)

  ghost predicate TablesFor(d: Dicts, p: PrefixTables)
  {
    IsPrefixTable(d.adds, p.keys, p.sums) && IsPrefixTable(d.addsOpen, p.openKeys, p.openSums)
  }

  method CheckBenchStatus(ms: Masters, d: Dicts, st: GameStatus, p: PrefixTables) returns (ok: bool)
    requires StatusOk(ms, st) && TablesFor(d, p)
    ensures ok <==> Passes(ms, d, st)
  {
    ok := ValidateStatusBench(ms, st, d, p.keys, p.sums, p.openKeys, p.openSums);
  }

  method BuildTables(d: Dicts) returns (p: PrefixTables)
    ensures TablesFor(d, p)
  {
    var keys, sums := PrefixSums(d.adds);
    var openKeys, openSums := PrefixSums(d.addsOpen);
    p := PrefixTables(keys, sums, openKeys, openSums);
  }

  method CheckBench(ms: Masters, d: Dicts, statuses: seq<GameStatus>) returns (ok: bool)
    requires StatusesOk(ms, statuses)
    ensures ok <==> AllPass(ms, d, statuses)
  {
    hide Passes, StatusOk, TablesFor;
    var p := BuildTables(d);
    for k := 0 to |statuses|
      invariant forall j :: 0 <= j < k ==> Passes(ms, d, statuses[j])
    {
      assert StatusOk(ms, statuses[k]);
      ok := CheckBenchStatus(ms, d, statuses[k], p);
      if !ok {
        return;
      }
    }
    return true;
  }

  ghost predicate Verdict(ms: Masters, isPreTest: bool, d: Dicts, statuses: seq<GameStatus>)
  {
    if isPreTest then (forall i :: i in ms ==> OrderedItem(d.buys, i)) && AllAccepted(ms, d, statuses)
    else AllPass(ms, d, statuses)
  }

  /** The whole log of a room: its statuses and its requests. */
  method ValidateGameLog(ms: Masters, isPreTest: bool, statuses: seq<StatusLog>, log: seq<RequestLog>)
    returns (ok: bool)
    requires StatusesOk(ms, StatusesOf(statuses))
    ensures ok ==> LogAcceptable(isPreTest, EntriesOf(log)) && AllReflected(statuses, log)
    ensures forall d :: DictsOf(EntriesOf(log), d) ==>
      (ok <==>
        && LogAcceptable(isPreTest, EntriesOf(log)) && AllReflected(statuses, log)
        && Verdict(ms, isPreTest, d, StatusesOf(statuses)))
    ensures LogAcceptable(isPreTest, EntriesOf(log)) ==> exists d :: DictsOf(EntriesOf(log), d)
  {
    hide AllReflected, StatusesOk;
    var statusDict := SortStatuses(statuses);
    var dicts := ReadLog(isPreTest, EntriesOf(log));
    if dicts.None? {
      return false;
    }
    ok := CheckRequests(ms, statuses, statusDict, log);
    if !ok {
      return;
    }
    if isPreTest {
      ok := CheckPretest(ms, dicts.value, StatusesOf(statuses));
    } else {
      ok := CheckBench(ms, dicts.value, StatusesOf(statuses));
    }
    forall d | DictsOf(EntriesOf(log), d) ensures d == dicts.value {
      LogDeterminesDicts(EntriesOf(log), d, dicts.value);
    }
  }
}
