/** What one WebSocket connection carries, what its client logs of it, and that an honest server's logs are accepted. */
module Connections {
  import opened BenchCheck
  import opened BenchLog
  import opened Bracketing
  import opened Common
  import opened GameLog
  import opened HonestGame
  import opened HonestRuns
  import opened LateRequests
  import opened Ledger
  import opened Rows
  import opened Status
  import opened StatusCheck

  // ---- The server's side --------------------------------------------------------------------------------------------

  /**
   One turn of the serving loop: a status when the connection opens or the ticker fires; a request that succeeded,
   named by its place in the order of processing, with the status computed after it; or one that was refused.
   */
  datatype Turn = Ticked(r: Report) | Served(k: nat, r: Report) | Refused(k: nat)

  datatype Message = Pushes(r: Report) | Answers(k: nat)

  /** A successful request is answered only after the status that reflects it. */
  function Writes(t: Turn): seq<Message>
  {
    match t
    case Ticked(r) => [Pushes(r)]
    case Served(k, r) => [Pushes(r), Answers(k)]
    case Refused(k) => [Answers(k)]
  }

  function Wire(turns: seq<Turn>): seq<Message>
  {
    if |turns| == 0 then [] else Wire(turns[..|turns| - 1]) + Writes(turns[|turns| - 1])
  }

  /** The status of a turn is computed once the turn's request was processed; adds are dated within its window. */
  ghost predicate TurnOk(ms: Masters, hs: seq<Happening>, t: Turn)
  {
    match t
    case Ticked(r) => Sent(ms, hs, r)
    case Served(k, r) => k < |LogOf(ms, hs)| && SeenInTime(ms, hs, k, r)
    case Refused(k) => k < |LogOf(ms, hs)| && !LogOf(ms, hs)[k].success
  }

  /** Turns are taken one after the other. */
  ghost predicate TurnsOk(ms: Masters, hs: seq<Happening>, turns: seq<Turn>)
  {
    && (forall i :: 0 <= i < |turns| ==> TurnOk(ms, hs, turns[i]))
    && (forall i, j :: 0 <= i < j < |turns| && !turns[i].Refused? && !turns[j].Refused? ==>
      turns[i].r.n <= turns[j].r.n)
  }

  /** The statuses on the wire, in the order they were computed. */
  ghost predicate ShowsInOrder(ms: Masters, hs: seq<Happening>, wire: seq<Message>)
  {
    && (forall i :: 0 <= i < |wire| && wire[i].Pushes? ==> Sent(ms, hs, wire[i].r))
    && (forall i, j :: 0 <= i < j < |wire| && wire[i].Pushes? && wire[j].Pushes? ==> wire[i].r.n <= wire[j].r.n)
  }

  /** Message i, if it answers a successful request, comes right after a status that counts it. */
  ghost predicate AnswersAfterStatus(ms: Masters, hs: seq<Happening>, wire: seq<Message>, i: nat)
    requires i < |wire|
  {
    wire[i].Answers? && wire[i].k < |LogOf(ms, hs)| && LogOf(ms, hs)[wire[i].k].success ==>
      0 < i && wire[i - 1].Pushes? && SeenInTime(ms, hs, wire[i].k, wire[i - 1].r)
  }

  ghost predicate WireOk(ms: Masters, hs: seq<Happening>, wire: seq<Message>)
  {
    ShowsInOrder(ms, hs, wire) && forall i :: 0 <= i < |wire| ==> AnswersAfterStatus(ms, hs, wire, i)
  }

  lemma {:induction false} WireIsBounded(turns: seq<Turn>, n: nat)
    requires forall i :: 0 <= i < |turns| && !turns[i].Refused? ==> turns[i].r.n <= n
    ensures forall i :: 0 <= i < |Wire(turns)| && Wire(turns)[i].Pushes? ==> Wire(turns)[i].r.n <= n
  {
    if |turns| > 0 {
      WireIsBounded(turns[..|turns| - 1], n);
    }
  }

  lemma PushTurn(ms: Masters, hs: seq<Happening>, wire: seq<Message>, t: Turn)
    requires WireOk(ms, hs, wire) && TurnOk(ms, hs, t)
    requires !t.Refused? ==> forall i :: 0 <= i < |wire| && wire[i].Pushes? ==> wire[i].r.n <= t.r.n
    ensures WireOk(ms, hs, wire + Writes(t))
  {
    hide Sent, SeenInTime, LogOf;
    var all := wire + Writes(t);
    assert t.Served? ==> Sent(ms, hs, t.r) by {
      if t.Served? {
        SeenIsSent(ms, hs, t.k, t.r);
      }
    }
    forall i | 0 <= i < |all| ensures AnswersAfterStatus(ms, hs, all, i) {
      if i < |wire| {
        assert AnswersAfterStatus(ms, hs, wire, i);
      }
    }
  }

  lemma SeenIsSent(ms: Masters, hs: seq<Happening>, k: nat, r: Report)
    requires k < |LogOf(ms, hs)| && SeenInTime(ms, hs, k, r)
    ensures Sent(ms, hs, r)
  {
  }

  /**
   On every connection statuses come in order, and a successful response right after a status that counts its
   request.
   */
  lemma {:induction false} StatusBeforeResponse(ms: Masters, hs: seq<Happening>, turns: seq<Turn>)
    requires TurnsOk(ms, hs, turns)
    ensures WireOk(ms, hs, Wire(turns))
  {
    if |turns| > 0 {
      var n := |turns| - 1;
      hide TurnOk, Writes, WireOk;
      assert WireOk(ms, hs, []) by { NothingOnTheWire(ms, hs); }
      StatusBeforeResponse(ms, hs, turns[..n]);
      if !turns[n].Refused? {
        WireIsBounded(turns[..n], turns[n].r.n);
      }
      PushTurn(ms, hs, Wire(turns[..n]), turns[n]);
    }
  }

  lemma NothingOnTheWire(ms: Masters, hs: seq<Happening>)
    ensures WireOk(ms, hs, [])
  {
  }

  /** The messages of turn i come right after those of the turns before it, a status before the response. */
  predicate IsWritten(turns: seq<Turn>, i: nat)
    requires i < |turns|
  {
    var wire, m, n := Wire(turns), |Wire(turns[..i])|, |Wire(turns[..i + 1])|;
    && n <= |wire|
    && match turns[i]
       case Ticked(r) => n == m + 1 && wire[m] == Pushes(r)
       case Served(k, r) => n == m + 2 && wire[m] == Pushes(r) && wire[m + 1] == Answers(k)
       case Refused(k) => n == m + 1 && wire[m] == Answers(k)
  }

  lemma {:induction false} WireGrows(turns: seq<Turn>, i: nat)
    requires i <= |turns|
    ensures Wire(turns[..i]) <= Wire(turns)
  {
    if i < |turns| {
      var n := |turns| - 1;
      WireGrows(turns[..n], i);
      assert turns[..n][..i] == turns[..i];
    } else {
      assert turns[..i] == turns;
    }
  }

  /** Every turn is written, in its place, and nothing else is. */
  lemma TurnsAreWritten(turns: seq<Turn>)
    ensures forall i :: 0 <= i < |turns| ==> IsWritten(turns, i)
    ensures |Wire(turns[..0])| == 0 && turns[..|turns|] == turns
  {
    forall i | 0 <= i < |turns| ensures IsWritten(turns, i) {
      WireGrows(turns, i + 1);
      assert turns[..i + 1][..i] == turns[..i];
    }
  }

  // ---- The client's side --------------------------------------------------------------------------------------------

  /** The statuses among the messages, with the times they arrived. */
  function Arrivals(wire: seq<Message>, at: seq<int>): seq<Received>
    requires |wire| == |at|
  {
    if |wire| == 0 then []
    else
      var n := |wire| - 1;
      Arrivals(wire[..n], at[..n]) + (if wire[n].Pushes? then [Received(at[n], wire[n].r.st)] else [])
  }

  function Before(wire: seq<Message>, at: seq<int>, i: nat): nat
    requires i <= |wire| == |at|
  {
    |Arrivals(wire[..i], at[..i])|
  }

  lemma {:induction false} ArrivalsGrow(wire: seq<Message>, at: seq<int>, i: nat, j: nat)
    requires i <= j <= |wire| == |at|
    ensures Before(wire, at, i) <= Before(wire, at, j)
    decreases j
  {
    if i < j {
      ArrivalsGrow(wire, at, i, j - 1);
      assert wire[..j][..j - 1] == wire[..j - 1] && at[..j][..j - 1] == at[..j - 1];
    }
  }

  /** The status of message i is the arrival numbered by the statuses before it. */
  lemma {:induction false} ArrivalOf(wire: seq<Message>, at: seq<int>, i: nat)
    requires i < |wire| == |at| && wire[i].Pushes?
    ensures Before(wire, at, i) < |Arrivals(wire, at)|
      && Arrivals(wire, at)[Before(wire, at, i)] == Received(at[i], wire[i].r.st)
  {
    var n := |wire| - 1;
    if i < n {
      ArrivalOf(wire[..n], at[..n], i);
      assert wire[..n][..i] == wire[..i] && at[..n][..i] == at[..i];
    }
  }

  /** Every arrival is the status of some message. */
  lemma {:induction false} MessageOf(wire: seq<Message>, at: seq<int>, p: nat) returns (i: nat)
    requires |wire| == |at| && p < |Arrivals(wire, at)|
    ensures i < |wire| && wire[i].Pushes? && Before(wire, at, i) == p
      && Arrivals(wire, at)[p] == Received(at[i], wire[i].r.st)
  {
    var n := |wire| - 1;
    if p < |Arrivals(wire[..n], at[..n])| {
      i := MessageOf(wire[..n], at[..n], p);
      assert wire[..n][..i] == wire[..i] && at[..n][..i] == at[..i];
    } else {
      i := n;
    }
  }

  lemma EarlierIsCounted(wire: seq<Message>, at: seq<int>, j: nat, i: nat)
    requires j < i <= |wire| == |at| && wire[j].Pushes?
    ensures Before(wire, at, j) < Before(wire, at, i)
  {
    ArrivalsGrow(wire, at, j + 1, i);
    assert wire[..j + 1][..j] == wire[..j] && at[..j + 1][..j] == at[..j];
  }

  /** Later arrivals are later messages. */
  lemma MessagesInOrder(wire: seq<Message>, at: seq<int>, i: nat, j: nat)
    requires i < |wire| == |at| && j < |wire| && wire[j].Pushes? && Before(wire, at, i) <= Before(wire, at, j)
    ensures i <= j
  {
    if j < i {
      EarlierIsCounted(wire, at, j, i);
    }
  }

  lemma ReportTime(ms: Masters, hs: seq<Happening>, r: Report, x: Received)
    requires Sent(ms, hs, r) && x.st == r.st
    ensures StatusTime(x) == RoomAfter(ms, hs[..r.n]).time
  {
    var s := RoomAfter(ms, hs[..r.n]);
    StartsAt(ms, r.st, s.adding, s.buying, s.time);
  }

  /** A report's room is no earlier than that of a report with fewer happenings. */
  lemma ReportsAdvance(ms: Masters, hs: seq<Happening>, m: nat, n: nat)
    requires m <= n <= |hs|
    ensures RoomAfter(ms, hs[..m]).time <= RoomAfter(ms, hs[..n]).time && |LogOf(ms, hs[..m])| <= |LogOf(ms, hs[..n])|
  {
    LaterRun(ms, hs[..n], m);
    assert hs[..n][..m] == hs[..m];
  }

  ghost predicate Nondecreasing(at: seq<int>)
  {
    forall i, j :: 0 <= i < j < |at| ==> at[i] <= at[j]
  }

  /** What a client receives on one connection comes with nondecreasing status times, because room times never fall. */
  lemma ArrivalsInOrder(ms: Masters, hs: seq<Happening>, wire: seq<Message>, at: seq<int>)
    requires ShowsInOrder(ms, hs, wire) && |wire| == |at| && Nondecreasing(at)
    ensures InClockOrder(Arrivals(wire, at))
    ensures forall p, q :: 0 <= p < q < |Arrivals(wire, at)| ==>
      StatusTime(Arrivals(wire, at)[p]) <= StatusTime(Arrivals(wire, at)[q])
  {
    var list := Arrivals(wire, at);
    forall p, q | 0 <= p < q < |list|
      ensures list[p].clientTime <= list[q].clientTime && StatusTime(list[p]) <= StatusTime(list[q])
    {
      var i := MessageOf(wire, at, p);
      var j := MessageOf(wire, at, q);
      MessagesInOrder(wire, at, i, j);
      StatusesInOrder(ms, hs, wire[i].r, wire[j].r, list[p], list[q]);
    }
  }

  lemma StatusesInOrder(ms: Masters, hs: seq<Happening>, r: Report, s: Report, x: Received, y: Received)
    requires Sent(ms, hs, r) && Sent(ms, hs, s) && r.n <= s.n && x.st == r.st && y.st == s.st
    ensures StatusTime(x) <= StatusTime(y)
  {
    ReportTime(ms, hs, r, x);
    ReportTime(ms, hs, s, y);
    ReportsAdvance(ms, hs, r.n, s.n);
  }

  lemma SeenLater(ms: Masters, hs: seq<Happening>, k: nat, r: Report, s: Report)
    requires k < |LogOf(ms, hs)| && SeenInTime(ms, hs, k, r) && Sent(ms, hs, s) && r.n <= s.n
    ensures SeenInTime(ms, hs, k, s)
  {
    ReportsAdvance(ms, hs, r.n, s.n);
  }

  /** The status chosen for a response was computed no earlier than the one written just before the response. */
  lemma ChosenIsLater(ms: Masters, hs: seq<Happening>, wire: seq<Message>, at: seq<int>, i: nat, t1: int, t2: int)
    returns (r: Report)
    requires ShowsInOrder(ms, hs, wire) && |wire| == |at| && Nondecreasing(at)
    requires i < |wire| && wire[i].Pushes? && t1 <= at[i] <= t2
    ensures Sent(ms, hs, r) && wire[i].r.n <= r.n && Latest(Arrivals(wire, at), t1, t2) == Some(r.st)
  {
    var list := Arrivals(wire, at);
    ArrivalsInOrder(ms, hs, wire, at);
    ArrivalOf(wire, at, i);
    var idx := LatestIdx(list, t1, t2);
    LatestIsLast(list, t1, t2, idx, Before(wire, at, i));
    var j := MessageOf(wire, at, idx);
    MessagesInOrder(wire, at, i, j);
    r := wire[j].r;
  }

  // ---- Clients and their logs ---------------------------------------------------------------------------------------

  /** A client's connection: what the server did on it, and when each message arrived, in the order written. */
  datatype Connection = Connection(turns: seq<Turn>, at: seq<int>)

  ghost predicate ConnectionOk(ms: Masters, hs: seq<Happening>, c: Connection)
  {
    TurnsOk(ms, hs, c.turns) && |c.at| == |Wire(c.turns)| && Nondecreasing(c.at)
  }

  /** Clients log every status as it arrives. */
  ghost predicate StatusesLogged(conns: map<int, Connection>, statuses: seq<StatusLog>)
  {
    && (forall k :: 0 <= k < |statuses| ==> statuses[k].client in conns)
    && forall c :: c in conns ==>
      |conns[c].at| == |Wire(conns[c].turns)| && ReceivedBy(statuses, c) == Arrivals(Wire(conns[c].turns), conns[c].at)
  }

  /**
   The response to the k-th request came as a message of the connection; the request had been sent before its turn
   began.
   */
  ghost predicate HeardOn(c: Connection, q: RequestLog, k: nat)
    requires |c.at| == |Wire(c.turns)|
  {
    exists i :: 0 <= i < |c.at| && Wire(c.turns)[i] == Answers(k) && c.at[i] == q.heard
      && (0 < i ==> q.sent <= c.at[i - 1])
  }

  ghost predicate RequestsLogged(conns: map<int, Connection>, log: seq<RequestLog>, place: seq<nat>)
    requires |place| == |log| && forall c :: c in conns ==> |conns[c].at| == |Wire(conns[c].turns)|
  {
    forall j :: 0 <= j < |log| && Succeeded(log[j].e) ==>
      log[j].client in conns && HeardOn(conns[log[j].client], log[j], place[j])
  }

  /** An honest game: its run, its connections, and the logs its clients wrote, in whatever order. */
  ghost predicate HonestLogs(ms: Masters, hs: seq<Happening>, conns: map<int, Connection>, statuses: seq<StatusLog>,
                             log: seq<RequestLog>, place: seq<nat>)
  {
    && FairRun(hs) && (forall c :: c in conns ==> ConnectionOk(ms, hs, conns[c]))
    && StatusesLogged(conns, statuses)
    && Reorders(EntriesOf(log), LogOf(ms, hs), place) && RequestsLogged(conns, log, place)
  }

  /** What the server writes in a run whose successful requests are all counted by the report r. */
  function TurnsFor(log: seq<Entry>, r: Report): seq<Turn>
  {
    seq(|log|, k requires 0 <= k < |log| => if log[k].success then Served(k, r) else Refused(k))
  }

  function AllAt0(n: nat): seq<int> { seq(n, _ => 0) }

  function Logged0(list: seq<Received>): seq<StatusLog>
  {
    seq(|list|, p requires 0 <= p < |list| => StatusLog(0, list[p].clientTime, list[p].st))
  }

  lemma {:induction false} LoggedBack(list: seq<Received>)
    ensures ReceivedBy(Logged0(list), 0) == list
  {
    if |list| > 0 {
      var n := |list| - 1;
      LoggedBack(list[..n]);
      assert Logged0(list)[..n] == Logged0(list[..n]);
      assert list == list[..n] + [list[n]];
    }
  }

  lemma AnswerIsHeard(log: seq<Entry>, r: Report, k: nat)
    requires k < |log|
    ensures Answers(k) in Wire(TurnsFor(log, r))
  {
    TurnsAreWritten(TurnsFor(log, r));
    assert IsWritten(TurnsFor(log, r), k);
  }

  /** The connection on which that is written, each message at time 0. */
  function Played(log: seq<Entry>, r: Report): Connection
  {
    Connection(TurnsFor(log, r), AllAt0(|Wire(TurnsFor(log, r))|))
  }

  function RequestsAt0(log: seq<Entry>): seq<RequestLog>
  {
    seq(|log|, k requires 0 <= k < |log| => RequestLog(0, 0, 0, log[k]))
  }

  lemma PlayedIsOk(ms: Masters, hs: seq<Happening>, r: Report)
    requires forall k :: 0 <= k < |LogOf(ms, hs)| && LogOf(ms, hs)[k].success ==> SeenInTime(ms, hs, k, r)
    ensures ConnectionOk(ms, hs, Played(LogOf(ms, hs), r))
  {
    hide LogOf, SeenInTime, Wire;
    var turns := TurnsFor(LogOf(ms, hs), r);
    forall i | 0 <= i < |turns| ensures TurnOk(ms, hs, turns[i]) {
    }
  }

  lemma PlayedIsHeard(log: seq<Entry>, r: Report, k: nat)
    requires k < |log|
    ensures HeardOn(Played(log, r), RequestsAt0(log)[k], k)
  {
    AnswerIsHeard(log, r, k);
    hide Wire, TurnsFor;
    var c, q := Played(log, r), RequestsAt0(log)[k];
    var i :| 0 <= i < |c.at| && Wire(c.turns)[i] == Answers(k);
    assert c.at[i] == q.heard && (0 < i ==> q.sent <= c.at[i - 1]);
  }

  function InPlace(n: nat): (place: seq<nat>) { seq(n, k => k) }

  lemma LoggedInPlace(log: seq<Entry>)
    ensures EntriesOf(RequestsAt0(log)) == log && Reorders(log, log, InPlace(|log|))
  {
  }

  lemma StatusesAreLogged(c: Connection)
    requires |c.at| == |Wire(c.turns)|
    ensures StatusesLogged(map[0 := c], Logged0(Arrivals(Wire(c.turns), c.at)))
  {
    hide Wire, Arrivals;
    LoggedBack(Arrivals(Wire(c.turns), c.at));
  }

  lemma RequestsAreLogged(log: seq<Entry>, r: Report)
    ensures RequestsLogged(map[0 := Played(log, r)], RequestsAt0(log), InPlace(|log|))
  {
    hide Played, HeardOn, Wire;
    var conns := map[0 := Played(log, r)];
    PlayedIsOnTime(log, r);
    forall j | 0 <= j < |RequestsAt0(log)| ensures HeardOn(conns[0], RequestsAt0(log)[j], InPlace(|log|)[j]) {
      PlayedIsHeard(log, r, j);
    }
  }

  lemma PlayedIsOnTime(log: seq<Entry>, r: Report)
    ensures |Played(log, r).at| == |Wire(Played(log, r).turns)|
  {
  }

  /**
   Every fair run can be played and logged, all its answers heard, if some report counts each add that succeeded within
   a second before its time.
   */
  lemma RunsAreLogged(ms: Masters, hs: seq<Happening>, r: Report)
    returns (conns: map<int, Connection>, statuses: seq<StatusLog>, log: seq<RequestLog>, place: seq<nat>)
    requires FairRun(hs)
    requires forall k :: 0 <= k < |LogOf(ms, hs)| && LogOf(ms, hs)[k].success ==> SeenInTime(ms, hs, k, r)
    ensures HonestLogs(ms, hs, conns, statuses, log, place) && EntriesOf(log) == LogOf(ms, hs)
  {
    var es := LogOf(ms, hs);
    var c := Played(es, r);
    conns, statuses := map[0 := c], Logged0(Arrivals(Wire(c.turns), c.at));
    log, place := RequestsAt0(es), InPlace(|es|);
    hide FairRun, SeenInTime, LogOf, Wire, ConnectionOk, Played, StatusesLogged, RequestsLogged, Reorders, Arrivals;
    PlayedIsOk(ms, hs, r);
    PlayedIsOnTime(es, r);
    StatusesAreLogged(c);
    RequestsAreLogged(es, r);
    LoggedInPlace(es);
  }

  /** A response to a successful request and the status written before it. */
  lemma AnsweredAfter(ms: Masters, hs: seq<Happening>, wire: seq<Message>, i: nat, e: Entry)
    requires WireOk(ms, hs, wire) && i < |wire| && wire[i].Answers?
    requires wire[i].k < |LogOf(ms, hs)| && LogOf(ms, hs)[wire[i].k] == e && Succeeded(e)
    ensures 0 < i && wire[i - 1].Pushes? && SeenInTime(ms, hs, wire[i].k, wire[i - 1].r)
  {
    assert AnswersAfterStatus(ms, hs, wire, i);
  }

  /**
   If message i shows a status that counts request k, and comes in the span, the status chosen from the span reflects
   the request.
   */
  lemma ChosenReflects(ms: Masters, hs: seq<Happening>, wire: seq<Message>, at: seq<int>, i: nat, k: nat, t1: int,
                       t2: int)
    requires FairRun(hs) && ShowsInOrder(ms, hs, wire) && |wire| == |at| && Nondecreasing(at)
    requires i < |wire| && wire[i].Pushes? && t1 <= at[i] <= t2
    requires k < |LogOf(ms, hs)| && SeenInTime(ms, hs, k, wire[i].r)
    ensures Reflected(LogOf(ms, hs)[k], Latest(SortedByTime(Arrivals(wire, at)), t1, t2))
  {
    hide SeenInTime, Sent, LogOf, Reflected, FairRun, ShowsInOrder, Latest, Arrivals, SortedByTime, Nondecreasing,
      InClockOrder;
    ArrivalsInOrder(ms, hs, wire, at);
    SortedStays(Arrivals(wire, at));
    var r := ChosenIsLater(ms, hs, wire, at, i, t1, t2);
    SeenLater(ms, hs, k, wire[i].r, r);
    SeenReflects(ms, hs, k, r);
  }

  lemma AnsweredIsReflected(ms: Masters, hs: seq<Happening>, wire: seq<Message>, at: seq<int>, i: nat, q: RequestLog)
    requires FairRun(hs) && WireOk(ms, hs, wire) && |wire| == |at| && Nondecreasing(at)
    requires i < |wire| && wire[i].Answers? && wire[i].k < |LogOf(ms, hs)| && LogOf(ms, hs)[wire[i].k] == q.e
      && Succeeded(q.e)
    requires at[i] == q.heard && (0 < i ==> q.sent <= at[i - 1])
    ensures Reflected(q.e, Latest(SortedByTime(Arrivals(wire, at)), q.sent, q.heard))
  {
    hide SeenInTime, Sent, LogOf, Reflected, FairRun, ShowsInOrder, Latest, Arrivals, SortedByTime, AnswersAfterStatus;
    AnsweredAfter(ms, hs, wire, i, q.e);
    ChosenReflects(ms, hs, wire, at, i - 1, wire[i].k, q.sent, q.heard);
  }

  lemma HeardIsReflected(ms: Masters, hs: seq<Happening>, c: Connection, q: RequestLog, k: nat)
    requires FairRun(hs) && ConnectionOk(ms, hs, c) && k < |LogOf(ms, hs)| && LogOf(ms, hs)[k] == q.e && Succeeded(q.e)
    requires HeardOn(c, q, k)
    ensures Reflected(q.e, Latest(SortedByTime(Arrivals(Wire(c.turns), c.at)), q.sent, q.heard))
  {
    hide WireOk, LogOf, Reflected, FairRun, Wire, Arrivals, Latest, TurnsOk, SortedByTime;
    StatusBeforeResponse(ms, hs, c.turns);
    var i :| 0 <= i < |c.at| && Wire(c.turns)[i] == Answers(k) && c.at[i] == q.heard
      && (0 < i ==> q.sent <= c.at[i - 1]);
    AnsweredIsReflected(ms, hs, Wire(c.turns), c.at, i, q);
  }

  /** Every confirmed request is reflected in the status its client's log is searched for. */
  lemma HonestLogsReflect(ms: Masters, hs: seq<Happening>, conns: map<int, Connection>, statuses: seq<StatusLog>,
                          log: seq<RequestLog>, place: seq<nat>)
    requires HonestLogs(ms, hs, conns, statuses, log, place)
    ensures AllReflected(statuses, log)
  {
    hide ConnectionOk, FairRun, LogOf, HeardOn;
    forall j | 0 <= j < |log| ensures Reflected(log[j].e, SeenBy(statuses, log[j])) {
      if Succeeded(log[j].e) {
        assert EntriesOf(log)[j] == log[j].e;
        HeardIsReflected(ms, hs, conns[log[j].client], log[j], place[j]);
      }
    }
  }

  lemma {:induction false} LoggedIsReceived(statuses: seq<StatusLog>, k: nat)
    requires k < |statuses|
    ensures Received(statuses[k].clientTime, statuses[k].st) in ReceivedBy(statuses, statuses[k].client)
  {
    if k < |statuses| - 1 {
      LoggedIsReceived(statuses[..|statuses| - 1], k);
    }
  }

  /** Every logged status is a report of the run, carried by its client's connection. */
  lemma LoggedIsSent(ms: Masters, hs: seq<Happening>, conns: map<int, Connection>, statuses: seq<StatusLog>, k: nat)
    returns (r: Report)
    requires (forall c :: c in conns ==> ConnectionOk(ms, hs, conns[c])) && StatusesLogged(conns, statuses)
      && k < |statuses|
    ensures Sent(ms, hs, r) && r.st == statuses[k].st && IsCarried(conns, r)
  {
    var c := conns[statuses[k].client];
    LoggedIsReceived(statuses, k);
    var list := Arrivals(Wire(c.turns), c.at);
    var p :| 0 <= p < |list| && list[p] == Received(statuses[k].clientTime, statuses[k].st);
    var i := MessageOf(Wire(c.turns), c.at, p);
    StatusBeforeResponse(ms, hs, c.turns);
    r := Wire(c.turns)[i].r;
    assert Wire(c.turns)[i] == Pushes(r) && Carries(c, r);
  }

  predicate Carries(c: Connection, r: Report) { Pushes(r) in Wire(c.turns) }
  ghost predicate IsCarried(conns: map<int, Connection>, r: Report)
  {
    exists c :: c in conns && Carries(conns[c], r)
  }

  /** No status pushed to a client is disturbed by later requests of its time or by the order of purchases. */
  ghost predicate AllUndisturbed(ms: Masters, hs: seq<Happening>, conns: map<int, Connection>)
  {
    forall r :: IsCarried(conns, r) ==> Undisturbed(ms, hs, r)
  }

  /** Reports of the run, one for each logged status. */
  ghost predicate ReportsOf(ms: Masters, hs: seq<Happening>, conns: map<int, Connection>, statuses: seq<StatusLog>,
                            reports: seq<Report>)
  {
    && AllSent(ms, hs, reports) && |reports| == |statuses|
    && (forall k :: 0 <= k < |reports| ==> reports[k].st == statuses[k].st)
    && forall k :: 0 <= k < |reports| ==> IsCarried(conns, reports[k])
  }

  lemma PushReport(ms: Masters, hs: seq<Happening>, conns: map<int, Connection>, statuses: seq<StatusLog>,
                   reports: seq<Report>, x: StatusLog, r: Report)
    requires ReportsOf(ms, hs, conns, statuses, reports) && Sent(ms, hs, r) && r.st == x.st && IsCarried(conns, r)
    ensures ReportsOf(ms, hs, conns, statuses + [x], reports + [r])
  {
    hide Sent, IsCarried;
  }

  lemma ReportsShow(ms: Masters, hs: seq<Happening>, conns: map<int, Connection>, statuses: seq<StatusLog>,
                    reports: seq<Report>)
    requires ReportsOf(ms, hs, conns, statuses, reports)
    ensures AllSent(ms, hs, reports) && |StatusesOf(statuses)| == |statuses| && ShownBy(reports) == StatusesOf(statuses)
  {
  }

  lemma LoggedAreSent(ms: Masters, hs: seq<Happening>, conns: map<int, Connection>, statuses: seq<StatusLog>)
    returns (reports: seq<Report>)
    requires (forall c :: c in conns ==> ConnectionOk(ms, hs, conns[c])) && StatusesLogged(conns, statuses)
    ensures ReportsOf(ms, hs, conns, statuses, reports)
  {
    hide ConnectionOk, StatusesLogged, Sent, IsCarried, ReportsOf;
    reports := [];
    assert statuses[..0] == [] && ReportsOf(ms, hs, conns, [], []) by { NoReports(ms, hs, conns); }
    for k := 0 to |statuses|
      invariant ReportsOf(ms, hs, conns, statuses[..k], reports)
    {
      var r := LoggedIsSent(ms, hs, conns, statuses, k);
      PushReport(ms, hs, conns, statuses[..k], reports, statuses[k], r);
      assert statuses[..k + 1] == statuses[..k] + [statuses[k]];
      reports := reports + [r];
    }
    assert statuses[..|statuses|] == statuses;
  }

  lemma NoReports(ms: Masters, hs: seq<Happening>, conns: map<int, Connection>)
    ensures ReportsOf(ms, hs, conns, [], [])
  {
  }

  // ---- The validation succeeds --------------------------------------------------------------------------------------

  /** The status is an undisturbed report of the run that goes through. */
  ghost predicate GoesThroughAt(ms: Masters, hs: seq<Happening>, st: GameStatus, d: Dicts)
  {
    exists n: nat :: n <= |hs| && Sent(ms, hs, Report(n, st)) && Undisturbed(ms, hs, Report(n, st))
      && GoesThrough(ms, hs, Report(n, st), d)
  }

  /** The status is a report of the run that meets the fast validator's exact condition. */
  ghost predicate PassesAt(ms: Masters, hs: seq<Happening>, st: GameStatus)
  {
    exists n: nat :: n <= |hs| && Sent(ms, hs, Report(n, st)) && PassesWithLate(ms, hs, n, st)
  }

  /** The slow validator's. */
  ghost predicate AcceptedAt(ms: Masters, hs: seq<Happening>, st: GameStatus)
  {
    exists n: nat :: n <= |hs| && Sent(ms, hs, Report(n, st)) && AcceptedWithLate(ms, hs, n, st)
  }

  lemma PassesIfItGoesThrough(ms: Masters, hs: seq<Happening>, r: Report, d: Dicts)
    requires FairRun(hs) && Sent(ms, hs, r) && Undisturbed(ms, hs, r) && DictsOf(LogOf(ms, hs), d)
    ensures Passes(ms, d, r.st) <==> GoesThroughAt(ms, hs, r.st, d)
  {
    assert r.n <= |hs| && r == Report(r.n, r.st);
    hide Passes, Sent, Undisturbed, FairRun, LogOf, DictsOf, GoesThrough;
    SentVerdict(ms, hs, r, d);
    if GoesThroughAt(ms, hs, r.st, d) {
      var n: nat :| n <= |hs| && Sent(ms, hs, Report(n, r.st)) && Undisturbed(ms, hs, Report(n, r.st))
        && GoesThrough(ms, hs, Report(n, r.st), d);
      SentVerdict(ms, hs, Report(n, r.st), d);
    }
  }

  lemma PassesIfCounted(ms: Masters, hs: seq<Happening>, r: Report, d: Dicts)
    requires FairRun(hs) && EverythingAnswered(hs) && Sent(ms, hs, r) && DictsOf(LogOf(ms, hs), d)
    ensures Passes(ms, d, r.st) <==> PassesAt(ms, hs, r.st)
    ensures Fits(ms, d, r.st) <==> AcceptedAt(ms, hs, r.st)
  {
    assert r.n <= |hs| && r == Report(r.n, r.st);
    CountedVerdicts(ms, hs, r, d);
    hide Passes, Fits, Sent, FairRun, EverythingAnswered, LogOf, DictsOf, PassesWithLate, AcceptedWithLate;
    if PassesAt(ms, hs, r.st) {
      var n: nat :| n <= |hs| && Sent(ms, hs, Report(n, r.st)) && PassesWithLate(ms, hs, n, r.st);
      CountedVerdicts(ms, hs, Report(n, r.st), d);
    }
    if AcceptedAt(ms, hs, r.st) {
      var n: nat :| n <= |hs| && Sent(ms, hs, Report(n, r.st)) && AcceptedWithLate(ms, hs, n, r.st);
      CountedVerdicts(ms, hs, Report(n, r.st), d);
    }
  }

  lemma CountedVerdicts(ms: Masters, hs: seq<Happening>, r: Report, d: Dicts)
    requires FairRun(hs) && EverythingAnswered(hs) && Sent(ms, hs, r) && DictsOf(LogOf(ms, hs), d)
    ensures Passes(ms, d, r.st) <==> PassesWithLate(ms, hs, r.n, r.st)
    ensures Fits(ms, d, r.st) <==> AcceptedWithLate(ms, hs, r.n, r.st)
  {
    hide FairRun, EverythingAnswered, LogOf, DictsOf, PassesWithLate, AcceptedWithLate, BenchVerdict, StatusAccepts,
      IsStatusOf, RoomAfter;
    RunVerdict(ms, hs, r.n, r.st, d);
    RunAcceptance(ms, hs, r.n, r.st, d);
  }

  lemma UndisturbedStatusesPass(ms: Masters, hs: seq<Happening>, conns: map<int, Connection>, statuses: seq<StatusLog>,
                                reports: seq<Report>, d: Dicts)
    requires FairRun(hs) && ReportsOf(ms, hs, conns, statuses, reports) && AllUndisturbed(ms, hs, conns)
    requires DictsOf(LogOf(ms, hs), d)
    ensures AllPass(ms, d, StatusesOf(statuses))
      <==> forall k :: 0 <= k < |statuses| ==> GoesThroughAt(ms, hs, statuses[k].st, d)
  {
    hide IsCarried, Sent, Undisturbed, FairRun, LogOf, DictsOf, Passes, GoesThroughAt;
    ReportsShow(ms, hs, conns, statuses, reports);
    forall k | 0 <= k < |statuses|
      ensures Passes(ms, d, StatusesOf(statuses)[k]) <==> GoesThroughAt(ms, hs, statuses[k].st, d)
    {
      assert ShownBy(reports)[k] == StatusesOf(statuses)[k] == statuses[k].st;
      PassesIfItGoesThrough(ms, hs, reports[k], d);
    }
  }

  lemma AnsweredStatusesPass(ms: Masters, hs: seq<Happening>, conns: map<int, Connection>, statuses: seq<StatusLog>,
                             reports: seq<Report>, d: Dicts)
    requires FairRun(hs) && EverythingAnswered(hs) && ReportsOf(ms, hs, conns, statuses, reports)
    requires DictsOf(LogOf(ms, hs), d)
    ensures AllPass(ms, d, StatusesOf(statuses))
      <==> forall k :: 0 <= k < |statuses| ==> PassesAt(ms, hs, statuses[k].st)
    ensures AllAccepted(ms, d, StatusesOf(statuses))
      <==> forall k :: 0 <= k < |statuses| ==> AcceptedAt(ms, hs, statuses[k].st)
  {
    hide IsCarried, Sent, FairRun, EverythingAnswered, LogOf, DictsOf, Passes, Fits, PassesAt, AcceptedAt;
    ReportsShow(ms, hs, conns, statuses, reports);
    forall k | 0 <= k < |statuses|
      ensures Passes(ms, d, StatusesOf(statuses)[k]) <==> PassesAt(ms, hs, statuses[k].st)
      ensures Fits(ms, d, StatusesOf(statuses)[k]) <==> AcceptedAt(ms, hs, statuses[k].st)
    {
      assert ShownBy(reports)[k] == StatusesOf(statuses)[k] == statuses[k].st;
      PassesIfCounted(ms, hs, reports[k], d);
    }
  }

  lemma HonestLogIsRead(ms: Masters, hs: seq<Happening>, conns: map<int, Connection>, statuses: seq<StatusLog>,
                        log: seq<RequestLog>, place: seq<nat>)
    requires HonestLogs(ms, hs, conns, statuses, log, place)
    ensures StatusesOk(ms, StatusesOf(statuses)) && LogAcceptable(false, EntriesOf(log))
    ensures forall d :: DictsOf(EntriesOf(log), d) <==> DictsOf(LogOf(ms, hs), d)
  {
    var reports := LoggedAreSent(ms, hs, conns, statuses);
    ReportsShow(ms, hs, conns, statuses, reports);
    AllSentAreWellFormed(ms, hs, reports);
    HonestLogIsAcceptable(ms, hs);
    forall d ensures DictsOf(EntriesOf(log), d) <==> DictsOf(LogOf(ms, hs), d) {
      LogOrderIsIrrelevant(EntriesOf(log), LogOf(ms, hs), place, false, d);
    }
    LogOrderIsIrrelevant(EntriesOf(log), LogOf(ms, hs), place, false, Dicts(map[], map[], map[], map[], map[]));
  }

  /** What the fast validation makes of the statuses of an honest game. */
  lemma HonestVerdict(ms: Masters, hs: seq<Happening>, conns: map<int, Connection>, statuses: seq<StatusLog>,
                      log: seq<RequestLog>, place: seq<nat>, d: Dicts)
    requires HonestLogs(ms, hs, conns, statuses, log, place) && DictsOf(EntriesOf(log), d)
    ensures AllUndisturbed(ms, hs, conns) ==> (AllPass(ms, d, StatusesOf(statuses))
      <==> forall k :: 0 <= k < |statuses| ==> GoesThroughAt(ms, hs, statuses[k].st, d))
    ensures EverythingAnswered(hs) ==> (AllPass(ms, d, StatusesOf(statuses))
      <==> forall k :: 0 <= k < |statuses| ==> PassesAt(ms, hs, statuses[k].st))
    ensures EverythingAnswered(hs) ==> (AllAccepted(ms, d, StatusesOf(statuses))
      <==> forall k :: 0 <= k < |statuses| ==> AcceptedAt(ms, hs, statuses[k].st))
  {
    HonestLogIsRead(ms, hs, conns, statuses, log, place);
    hide StatusesLogged, ConnectionOk, EntriesOf, RequestsLogged, Reorders, AllUndisturbed, EverythingAnswered, FairRun,
      LogOf, DictsOf, AllPass, AllAccepted, GoesThroughAt, PassesAt, AcceptedAt, ReportsOf;
    var reports := LoggedAreSent(ms, hs, conns, statuses);
    if AllUndisturbed(ms, hs, conns) {
      UndisturbedStatusesPass(ms, hs, conns, statuses, reports, d);
    }
    if EverythingAnswered(hs) {
      AnsweredStatusesPass(ms, hs, conns, statuses, reports, d);
    }
  }

  /**
   The validation of an honest run's logs succeeds exactly if every status goes through, none being disturbed; and of a
   fully answered run's, disturbed or not, exactly if every status meets the fast validator's condition.
   */
  method ValidateHonestRun(ms: Masters, statuses: seq<StatusLog>, log: seq<RequestLog>,
                           ghost hs: seq<Happening>, ghost conns: map<int, Connection>,
                             ghost place: seq<nat>) returns (ok: bool)
    requires HonestLogs(ms, hs, conns, statuses, log, place)
    ensures AllUndisturbed(ms, hs, conns) ==> forall d :: DictsOf(EntriesOf(log), d) ==>
      (ok <==> forall k :: 0 <= k < |statuses| ==> GoesThroughAt(ms, hs, statuses[k].st, d))
    ensures EverythingAnswered(hs) ==>
      (ok <==> forall k :: 0 <= k < |statuses| ==> PassesAt(ms, hs, statuses[k].st))
  {
    HonestLogIsRead(ms, hs, conns, statuses, log, place);
    HonestLogsReflect(ms, hs, conns, statuses, log, place);
    ok := ValidateGameLog(ms, false, statuses, log);
    hide HonestLogs, AllUndisturbed, EverythingAnswered, DictsOf, EntriesOf, GoesThroughAt, PassesAt, AllPass,
      AllReflected;
    forall d | DictsOf(EntriesOf(log), d) {
      HonestVerdict(ms, hs, conns, statuses, log, place, d);
    }
  }

  lemma HonestPretestVerdict(ms: Masters, hs: seq<Happening>, conns: map<int, Connection>, statuses: seq<StatusLog>,
                             log: seq<RequestLog>, place: seq<nat>, d: Dicts)
    requires HonestLogs(ms, hs, conns, statuses, log, place) && EverythingAnswered(hs) && DictsOf(EntriesOf(log), d)
    ensures Verdict(ms, true, d, StatusesOf(statuses)) <==>
      && InTimeOrder(RoomAfter(ms, hs).buying)
      && forall k :: 0 <= k < |statuses| ==> AcceptedAt(ms, hs, statuses[k].st)
  {
    hide HonestLogs, EntriesOf, EverythingAnswered, LogOf, AllAccepted, DictsOf, AcceptedAt, InTimeOrder, OrderedItem,
      RoomAfter, LogAcceptable, AllUndisturbed;
    HonestLogIsRead(ms, hs, conns, statuses, log, place);
    HonestVerdict(ms, hs, conns, statuses, log, place, d);
    OrderedExactly(ms, hs, d);
  }

  lemma AnsweredRunIsAcceptable(ms: Masters, hs: seq<Happening>, log: seq<RequestLog>, place: seq<nat>)
    requires EverythingAnswered(hs) && Reorders(EntriesOf(log), LogOf(ms, hs), place)
    ensures LogAcceptable(true, EntriesOf(log))
  {
    hide Reorders, EntriesOf, EverythingAnswered, LogOf, LogAcceptable;
    HonestLogIsAcceptable(ms, hs);
    EntriesAnswered(ms, hs);
    AnsweredLogIsAcceptable(LogOf(ms, hs));
    LogOrderIsIrrelevant(EntriesOf(log), LogOf(ms, hs), place, true, Dicts(map[], map[], map[], map[], map[]));
  }

  lemma UndisturbedPretestVerdict(ms: Masters, hs: seq<Happening>, conns: map<int, Connection>,
                                  statuses: seq<StatusLog>, log: seq<RequestLog>, place: seq<nat>, d: Dicts)
    requires HonestLogs(ms, hs, conns, statuses, log, place) && EverythingAnswered(hs) && DictsOf(EntriesOf(log), d)
    requires AllUndisturbed(ms, hs, conns)
    ensures Verdict(ms, true, d, StatusesOf(statuses)) <==> InTimeOrder(RoomAfter(ms, hs).buying)
  {
    HonestLogIsRead(ms, hs, conns, statuses, log, place);
    hide StatusesLogged, ConnectionOk, EntriesOf, RequestsLogged, Reorders, EverythingAnswered, FairRun, LogOf,
      AllAccepted, DictsOf, AcceptedAt, InTimeOrder, OrderedItem, RoomAfter, LogAcceptable, Sent, Undisturbed,
      IsCarried;
    var reports := LoggedAreSent(ms, hs, conns, statuses);
    ReportsShow(ms, hs, conns, statuses, reports);
    HonestPretestIsAccepted(ms, hs, reports, d);
  }

  /**
   The pretest of a fully answered honest run succeeds exactly if each item's purchases were dated in the order they
   were made and every status meets the slow validator's condition, which an undisturbed one does.
   */
  method ValidateHonestPretest(ms: Masters, statuses: seq<StatusLog>, log: seq<RequestLog>,
                               ghost hs: seq<Happening>, ghost conns: map<int, Connection>,
                                 ghost place: seq<nat>) returns (ok: bool)
    requires HonestLogs(ms, hs, conns, statuses, log, place) && EverythingAnswered(hs)
    ensures ok <==>
      && InTimeOrder(RoomAfter(ms, hs).buying)
      && forall k :: 0 <= k < |statuses| ==> AcceptedAt(ms, hs, statuses[k].st)
    ensures AllUndisturbed(ms, hs, conns) ==> (ok <==> InTimeOrder(RoomAfter(ms, hs).buying))
  {
    HonestLogIsRead(ms, hs, conns, statuses, log, place);
    HonestLogsReflect(ms, hs, conns, statuses, log, place);
    AnsweredRunIsAcceptable(ms, hs, log, place);
    ok := ValidateGameLog(ms, true, statuses, log);
    hide HonestLogs, EverythingAnswered, LogAcceptable, InTimeOrder, OrderedItem, AcceptedAt, DictsOf, EntriesOf,
      AllUndisturbed, AllAccepted, AllReflected;
    ghost var d :| DictsOf(EntriesOf(log), d);
    HonestPretestVerdict(ms, hs, conns, statuses, log, place, d);
    if AllUndisturbed(ms, hs, conns) {
      UndisturbedPretestVerdict(ms, hs, conns, statuses, log, place, d);
    }
  }
}
