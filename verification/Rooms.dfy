/**
 A room's tables and the requests that change them, one committed transaction at a time: what a request needs to be
 accepted, what it changes, and the room object whose methods do it, with the rollback of a refused purchase.  How
 transactions of several clients interleave is the business of another module.
 */
module Rooms {
  import opened Common
  import opened Ledger
  import opened Status
  import opened Sums

  datatype RoomState = RoomState(time: int, adding: seq<Adding>, buying: seq<Buying>)

  /** A request; View is the status read every client gets, which carries no request time (0). */
  datatype Request =
    | AddIsu(isu: int, time: int)
    | BuyItem(item: int, countBought: nat, time: int)
    | View(time: int)

  const EMPTY_ROOM := RoomState(0, [], [])

  /** What the tables' keys and the ordinal rule guarantee. */
  ghost predicate ValidState(ms: Masters, s: RoomState)
  {
    UniqueTimes(s.adding) && KnownItems(ms, s.buying) && InOrdinalOrder(s.buying)
  }

  /** The room lock's time checks, for a transaction that reads the clock as `now`. */
  predicate TimeOk(s: RoomState, now: int, reqTime: int)
  {
    s.time <= now && (reqTime != 0 ==> now <= reqTime)
  }

  /** The row of the adding table with the given key, or |adding|. */
  function RowIndex(adding: seq<Adding>, time: int): (k: nat)
    ensures k <= |adding| && (k < |adding| ==> adding[k].time == time)
    ensures k == |adding| ==> forall i :: 0 <= i < |adding| ==> adding[i].time != time
  {
    if |adding| == 0 then 0
    else if adding[|adding| - 1].time == time then |adding| - 1
    else
      var k := RowIndex(adding[..|adding| - 1], time);
      if k == |adding| - 1 then |adding| else k
  }

  function WithIsu(adding: seq<Adding>, isu: int, time: int): seq<Adding>
  {
    var k := RowIndex(adding, time);
    if k < |adding| then adding[k := Adding(time, adding[k].isu + isu)] else adding + [Adding(time, isu)]
  }

  /** Whether a request dated r for the next copy of an item is affordable by the tables. */
  predicate Affordable(ms: Masters, s: RoomState, item: int, countBought: nat, r: int)
  {
    item in ms && Bought(s.buying, item) == countBought
      && Need(ms, item, countBought) <= Balance(ms, s.adding, s.buying, r)
  }

  predicate Accepts(ms: Masters, s: RoomState, now: int, q: Request)
  {
    TimeOk(s, now, q.time) && (q.BuyItem? ==> Affordable(ms, s, q.item, q.countBought, q.time))
  }

  function Apply(s: RoomState, now: int, q: Request): RoomState
  {
    match q
    case AddIsu(isu, time) => RoomState(now, WithIsu(s.adding, isu, time), s.buying)
    case BuyItem(item, n, time) => RoomState(now, s.adding, s.buying + [Buying(item, n + 1, time)])
    case View(_) => RoomState(now, s.adding, s.buying)
  }

  /** A transaction: the whole change if the request is accepted, nothing if it is not. */
  function Step(ms: Masters, s: RoomState, now: int, q: Request): RoomState
  {
    if Accepts(ms, s, now, q) then Apply(s, now, q) else s
  }

  // ---- The room object -----------------------------------------------------------------------------

  class Room {
    const ms: Masters
    var time: int
    var adding: seq<Adding>
    var buying: seq<Buying>

    function State(): RoomState
      reads this
    {
      RoomState(time, adding, buying)
    }

    ghost predicate Valid()
      reads this
    {
      ValidState(ms, State())
    }

    constructor (ms: Masters)
      ensures this.ms == ms && State() == EMPTY_ROOM && Valid()
    {
      this.ms := ms;
      time, adding, buying := 0, [], [];
    }

    /** Takes the room lock, checks the clock against the room and the request, and advances the room time. */
    method UpdateRoomTime(now: int, reqTime: int) returns (ok: bool)
      modifies this`time
      ensures ok == TimeOk(old(State()), now, reqTime)
      ensures time == if ok then now else old(time)
    {
      if time > now {
        return false;
      }
      if reqTime != 0 {
        if reqTime < now {
          return false;
        }
      }
      time := now;
      return true;
    }

    method AddIsu(now: int, reqIsu: int, reqTime: int) returns (ok: bool)
      requires Valid()
      modifies this
      ensures Valid()
      ensures ok == Accepts(ms, old(State()), now, Request.AddIsu(reqIsu, reqTime))
      ensures State() == Step(ms, old(State()), now, Request.AddIsu(reqIsu, reqTime))
    {
      ok := UpdateRoomTime(now, reqTime);
      if !ok {
        return;
      }
      var k := RowIndex(adding, reqTime);
      if k == |adding| {
        adding := adding + [Adding(reqTime, 0)];
      }
      adding := adding[k := Adding(reqTime, adding[k].isu + reqIsu)];
    }

    method BuyItem(now: int, item: int, countBought: nat, reqTime: int) returns (ok: bool)
      requires Valid()
      modifies this
      ensures Valid()
      ensures ok == Accepts(ms, old(State()), now, Request.BuyItem(item, countBought, reqTime))
      ensures State() == Step(ms, old(State()), now, Request.BuyItem(item, countBought, reqTime))
    {
      var roomTime := time;
      ok := UpdateRoomTime(now, reqTime);
      if !ok {
        return;
      }
      if Bought(buying, item) != countBought {
        time := roomTime; // rollback
        return false;
      }
      var totalMilliIsu := BalanceAt(ms, adding, buying, reqTime);
      if item !in ms || totalMilliIsu < 1000 * Price(ms, item, countBought + 1) {
        time := roomTime; // rollback
        return false;
      }
      NextRowKeepsOrder(ms, buying, item, reqTime);
      buying := buying + [Buying(item, countBought + 1, reqTime)];
    }

    /** The status at the transaction's clock, or nothing when the room time is in the future. */
    method GetStatus(now: int, latestTime: int) returns (st: Option<GameStatus>)
      requires Valid()
      modifies this`time
      ensures st.Some? == Accepts(ms, old(State()), now, Request.View(0))
      ensures State() == Step(ms, old(State()), now, Request.View(0))
      ensures st.Some? ==> st.value.time == latestTime && IsStatusOf(st.value, ms, adding, buying, now)
    {
      var ok := UpdateRoomTime(now, 0);
      if !ok {
        return None;
      }
      OrderedAtOrdinals(buying, now);
      hide AtOrdinals, IsReading, IsStatusOf;
      var view := CalcStatus(now, ms, adding, buying);
      return Some(view.(time := latestTime));
    }
  }

  /** The balance as a purchase computes it: only rows dated up to the request count, every price does. */
  method BalanceAt(ms: Masters, adding: seq<Adding>, buying: seq<Buying>, reqTime: int) returns (totalMilliIsu: int)
    ensures totalMilliIsu == Balance(ms, adding, buying, reqTime)
  {
    totalMilliIsu := 0;
    for k := 0 to |adding|
      invariant totalMilliIsu == 1000 * Sum(adding[..k], IsuBy(reqTime))
    {
      assert adding[..k + 1][..k] == adding[..k];
      if adding[k].time <= reqTime {
        totalMilliIsu := totalMilliIsu + 1000 * adding[k].isu;
      }
    }
    assert adding[..|adding|] == adding;
    for k := 0 to |buying|
      invariant totalMilliIsu == 1000 * Sum(adding, IsuBy(reqTime)) + Spent(ms, buying[..k], reqTime)
    {
      var b := buying[k];
      assert buying[..k + 1] == buying[..k] + [b];
      PushTotals(ms, buying[..k], b, reqTime);
      totalMilliIsu := totalMilliIsu - 1000 * Price(ms, b.item, b.ordinal);
      if b.time <= reqTime {
        totalMilliIsu := totalMilliIsu + Power(ms, b.item, b.ordinal) * (reqTime - b.time);
      }
    }
    assert buying[..|buying|] == buying;
  }

  lemma NextRowKeepsOrder(ms: Masters, buying: seq<Buying>, item: int, time: int)
    requires KnownItems(ms, buying) && InOrdinalOrder(buying) && item in ms
    ensures KnownItems(ms, buying + [Buying(item, Bought(buying, item) + 1, time)])
    ensures InOrdinalOrder(buying + [Buying(item, Bought(buying, item) + 1, time)])
  {
    var next := buying + [Buying(item, Bought(buying, item) + 1, time)];
    forall k | 0 <= k < |next| ensures next[k].ordinal == Bought(next[..k], next[k].item) + 1 {
      if k < |buying| {
        assert next[..k] == buying[..k];
      } else {
        assert next[..k] == buying;
      }
    }
  }

  lemma StepKeepsValid(ms: Masters, s: RoomState, now: int, q: Request)
    requires ValidState(ms, s)
    ensures ValidState(ms, Step(ms, s, now, q))
  {
    if Accepts(ms, s, now, q) {
      if q.AddIsu? {
      } else if q.BuyItem? {
        NextRowKeepsOrder(ms, s.buying, q.item, q.time);
      }
    }
  }
}
