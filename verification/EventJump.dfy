/**
 The benchmark's fast walk through a window: it jumps from event time to event time, for two opening balances at
 once.
 */
module EventJump {
  import opened BenchLog
  import opened Common
  import opened OnSaleSearch
  import opened Status
  import opened Sums
  import opened Windows

  ghost predicate EventOffset(w: Window, d: int) { 0 < d <= 1000 && EventAt(w, w.start + d) }

  /** Notes the offsets, within the window, of the given times. */
  method NoteOffsets(timeMap0: set<int>, start: int, times: seq<int>) returns (timeMap: set<int>)
    ensures forall d :: d in timeMap <==> d in timeMap0 || (0 < d <= 1000 && start + d in times)
  {
    timeMap := timeMap0;
    for k := 0 to |times|
      invariant forall d :: d in timeMap <==> d in timeMap0 || (0 < d <= 1000 && start + d in times[..k])
    {
      assert times[..k + 1] == times[..k] + [times[k]];
      var tt := times[k] - start;
      if 0 < tt && tt <= 1000 {
        timeMap := timeMap + {tt};
      }
    }
    assert times[..|times|] == times;
  }

  /** The offsets within the window at which something happens. */
  method EventOffsets(w: Window) returns (timeList: seq<int>)
    ensures Increasing(timeList) && forall d :: d in timeList <==> EventOffset(w, d)
  {
    var adds := Listing(w.adds.Keys);
    var timeMap := NoteOffsets({}, w.start, adds);
    var buys := Listing(w.buys.Keys);
    timeMap := NoteOffsets(timeMap, w.start, buys);
    timeList := SortedKeys(timeMap);
  }

  function Raised(w: Window, base: int): Window { w.(base := base) }

  lemma RaisedIsAlike(w: Window, base: int)
    ensures Alike(w, Raised(w, base))
  {
  }

  /** The accumulators, standing at the last event time reached. */
  datatype Walk = Walk(
    at: int, milliIsu1: int, milliIsu2: int, totalPower: int, itemPower: map<int, int>, itemBuilt: map<int, int>,
    building: map<int, seq<Batch>>, ts: seq<int>, x1s: seq<int>, x2s: seq<int>, vs: seq<int>)

  /** The walk at t agrees with the millisecond-by-millisecond window, for both opening balances. */
  ghost predicate AgreesAt(w: Window, base2: int, s: Walk, t: int)
  {
    && s.at == t
    && s.milliIsu1 == BalanceNow(w, t) && s.milliIsu2 == BalanceNow(w, t) - w.base + base2
    && s.totalPower == PowerNow(w, t) && s.itemPower == PowersAt(w, t) && s.itemBuilt == CountsAt(w, t)
    && s.building == BatchMap(w, t)
    && PointsOf(ScheduleTo(w, t), s.ts, s.x1s, s.vs)
    && ShiftedBy(s.x1s, s.x2s, base2 - w.base)
  }

  ghost predicate ShiftedBy(xs: seq<int>, ys: seq<int>, d: int)
  {
    |xs| == |ys| && forall k :: 0 <= k < |xs| ==> ys[k] == xs[k] + d
  }

  lemma QuietMaps(w: Window, t: int, u: int)
    requires w.start <= t <= u && forall s :: t < s <= u ==> !EventAt(w, s)
    ensures PowersAt(w, u) == PowersAt(w, t) && CountsAt(w, u) == CountsAt(w, t) && BatchMap(w, u) == BatchMap(w, t)
  {
    QuietStretch(w, t, u);
    SameTable(PowersAt(w, u), PowersAt(w, t));
    SameTable(CountsAt(w, u), CountsAt(w, t));
    SameTable(BatchMap(w, u), BatchMap(w, t));
  }

  /** One jump to the next event time. */
  method Jump(w: Window, ghost base2: int, s: Walk, t: int) returns (r: Walk)
    requires KnownWindow(w) && w.start <= s.at < t && AgreesAt(w, base2, s, s.at)
    requires EventAt(w, t) && forall u :: s.at < u < t ==> !EventAt(w, u)
    ensures AgreesAt(w, base2, r, t)
  {
    QuietStretch(w, s.at, t - 1);
    QuietMaps(w, s.at, t - 1);
    assert s.totalPower * (t - s.at) == s.totalPower * (t - 1 - s.at) + s.totalPower;
    var y := s.totalPower * (t - s.at);
    var milliIsu1, milliIsu2 := s.milliIsu1 + y, s.milliIsu2 + y;
    if t in w.adds {
      milliIsu1 := milliIsu1 + 1000 * w.adds[t];
      milliIsu2 := milliIsu2 + 1000 * w.adds[t];
    }
    assert milliIsu1 == BalanceNow(w, t);
    var totalPower, itemPower, itemBuilt,
      building := TickBuys(w, t, s.totalPower, s.itemPower, s.itemBuilt, s.building);
    r := Walk(t, milliIsu1, milliIsu2, totalPower, itemPower, itemBuilt, building,
              s.ts + [t], s.x1s + [milliIsu1], s.x2s + [milliIsu2], s.vs + [totalPower]);
    assert ScheduleTo(w, t) == ScheduleTo(w, s.at) + [PointAt(w, t)];
  }

  method Start(w: Window, base2: int) returns (s: Walk)
    requires KnownWindow(w)
    ensures AgreesAt(w, base2, s, w.start)
  {
    var none: map<int, seq<Batch>> := map i | i in w.ms :: [];
    s := Walk(w.start, w.base, base2, w.power, w.itemPower, w.itemBuilt, none, [w.start], [w.base], [base2], [w.power]);
    SameTable(s.itemPower, PowersAt(w, w.start));
    SameTable(s.itemBuilt, CountsAt(w, w.start));
    SameTable(none, BatchMap(w, w.start));
  }

  method JumpAll(w: Window, base2: int, timeList: seq<int>) returns (s: Walk)
    requires KnownWindow(w)
    requires Increasing(timeList) && forall d :: d in timeList <==> EventOffset(w, d)
    ensures AgreesAt(w, base2, s, s.at)
    ensures s.at == if |timeList| == 0 then w.start else w.start + timeList[|timeList| - 1]
  {
    s := Start(w, base2);
    for k := 0 to |timeList|
      invariant AgreesAt(w, base2, s, s.at)
      invariant s.at == if k == 0 then w.start else w.start + timeList[k - 1]
      invariant w.start <= s.at
    {
      var t := w.start + timeList[k];
      NextEvent(w, timeList, k, s.at);
      s := Jump(w, base2, s, t);
    }
  }

  /** Past the last event nothing changes, so the walk has seen the whole window. */
  lemma WalkIsComplete(w: Window, base2: int, s: Walk)
    requires w.start <= s.at <= Horizon(w) && AgreesAt(w, base2, s, s.at)
    requires forall u :: s.at < u <= Horizon(w) ==> !EventAt(w, u)
    ensures PointsOf(ScheduleTo(w, Horizon(w)), s.ts, s.x1s, s.vs)
    ensures PointsOf(ScheduleTo(Raised(w, base2), Horizon(w)), s.ts, s.x2s, s.vs)
    ensures s.building == BatchMap(w, Horizon(w))
  {
    QuietStretch(w, s.at, Horizon(w));
    QuietMaps(w, s.at, Horizon(w));
    RaisedIsAlike(w, base2);
    AlikeWindows(w, Raised(w, base2), Horizon(w));
  }

  /** Event jumping yields exactly what the 1000-step walk yields: times, both balances, powers and building batches. */
  method JumpThrough(w: Window, base2: int)
    returns (ts: seq<int>, x1s: seq<int>, x2s: seq<int>, vs: seq<int>, building: map<int, seq<Batch>>)
    requires KnownWindow(w)
    ensures PointsOf(ScheduleTo(w, Horizon(w)), ts, x1s, vs)
    ensures PointsOf(ScheduleTo(Raised(w, base2), Horizon(w)), ts, x2s, vs)
    ensures building == BatchMap(w, Horizon(w))
  {
    var timeList := EventOffsets(w);
    var s := JumpAll(w, base2, timeList);
    if |timeList| > 0 {
      assert timeList[|timeList| - 1] in timeList;
    }
    LastEvent(w, timeList, s.at);
    WalkIsComplete(w, base2, s);
    ts, x1s, x2s, vs, building := s.ts, s.x1s, s.x2s, s.vs, s.building;
  }

  lemma NextEvent(w: Window, timeList: seq<int>, k: nat, from: int)
    requires Increasing(timeList) && (forall d :: d in timeList <==> EventOffset(w, d)) && k < |timeList|
    requires from == if k == 0 then w.start else w.start + timeList[k - 1]
    ensures from < w.start + timeList[k] && EventAt(w, w.start + timeList[k])
    ensures forall u :: from < u < w.start + timeList[k] ==> !EventAt(w, u)
  {
    assert timeList[k] in timeList;
    forall u | from < u < w.start + timeList[k] ensures !EventAt(w, u) {
      var d := u - w.start;
      assert EventAt(w, u) ==> EventOffset(w, d) by {
        assert w.start + d == u;
        if k > 0 {
          assert timeList[k - 1] in timeList;
        }
      }
      if d in timeList {
        var j :| 0 <= j < |timeList| && timeList[j] == d;
      }
    }
  }

  lemma LastEvent(w: Window, timeList: seq<int>, from: int)
    requires Increasing(timeList) && forall d :: d in timeList <==> EventOffset(w, d)
    requires from == if |timeList| == 0 then w.start else w.start + timeList[|timeList| - 1]
    ensures forall u :: from < u <= Horizon(w) ==> !EventAt(w, u)
  {
    forall u | from < u <= Horizon(w) ensures !EventAt(w, u) {
      var d := u - w.start;
      assert EventAt(w, u) ==> EventOffset(w, d) by {
        assert w.start + d == u;
        if |timeList| > 0 {
          assert timeList[|timeList| - 1] in timeList;
        }
      }
      forall j | 0 <= j < |timeList| ensures timeList[j] < d {
        assert j == |timeList| - 1 || timeList[j] < timeList[|timeList| - 1];
      }
    }
  }
}
