/** calcOnSale: the first time a piecewise linear balance covers a price, by ceiling division on its segments. */
module OnSaleSearch {
  import opened Common
  import opened Exponents
  import opened Items
  import opened Windows

  // Segment k of the curve starts at ts[k] with value xs[k] and slope vs[k].

  ghost predicate Shape(ts: seq<int>, xs: seq<int>, vs: seq<int>)
  {
    && |ts| == |xs| == |vs| && 0 < |ts|
    && -INT64_BOUND <= ts[0] && ts[0] + 1000 < INT64_BOUND
    && (forall k :: 0 <= k < |ts| ==> ts[k] <= ts[0] + 1000)
    && (forall j, k :: 0 <= j < k < |ts| ==> ts[j] < ts[k])
  }

  ghost predicate NeverDrops(ts: seq<int>, xs: seq<int>, vs: seq<int>)
    requires Shape(ts, xs, vs)
  {
    && (forall k :: 0 <= k < |vs| ==> 0 <= vs[k])
    && (forall k :: 0 < k < |ts| ==> xs[k - 1] + vs[k - 1] * (ts[k] - ts[k - 1]) <= xs[k])
  }

  ghost predicate Covers(ts: seq<int>, k: int, t: int)
    requires 0 < |ts|
  {
    0 <= k < |ts| && ts[k] <= t <= ts[0] + 1000 && (k + 1 < |ts| ==> t < ts[k + 1])
  }

  function Value(ts: seq<int>, xs: seq<int>, vs: seq<int>, k: nat, t: int): int
    requires k < |ts| == |xs| == |vs|
  {
    xs[k] + vs[k] * (t - ts[k])
  }

  /** r is the least time of the window at which the curve covers pr, or -1 if there is none. */
  ghost predicate IsFirst(pr: int, ts: seq<int>, xs: seq<int>, vs: seq<int>, r: int)
    requires Shape(ts, xs, vs)
  {
    && (forall k, t :: Covers(ts, k, t) && (r == -1 || t < r) ==> Value(ts, xs, vs, k, t) < pr)
    && (r != -1 ==> exists k :: Covers(ts, k, r) && pr <= Value(ts, xs, vs, k, r))
  }

  /** The rounded-up quotient the search computes for a segment. */
  function Steps(pr: int, x: int, v: int): int
    requires 0 < v
  {
    (pr - x + v - 1) / v
  }

  function Wrap64(x: int): int { (x + INT64_BOUND) % (2 * INT64_BOUND) - INT64_BOUND }

  /** The 64-bit number that differs from x by a multiple of 2^64. */
  lemma Wrap64IsInt64(x: int)
    ensures -INT64_BOUND <= Wrap64(x) < INT64_BOUND
    ensures (x - Wrap64(x)) % 0x1_0000_0000_0000_0000 == 0
    ensures -INT64_BOUND <= x < INT64_BOUND ==> Wrap64(x) == x
  {
    var m := 0x1_0000_0000_0000_0000;
    var q := (x + INT64_BOUND) / m;
    assert x - Wrap64(x) == q * m;
  }

  /** The search leaves segment k for the next one. */
  predicate PassedOver(pr: int, ts: seq<int>, xs: seq<int>, vs: seq<int>, k: nat)
    requires k < |ts| == |xs| == |vs|
  {
    && xs[k] < pr
    && (vs[k] <= 0 || INT64_BOUND <= Steps(pr, xs[k], vs[k])
      || (k + 1 < |ts| && ts[k + 1] <= Wrap64(ts[k] + Steps(pr, xs[k], vs[k]))))
  }

  /** The first segment from k on that the search stops at, or |ts|. */
  function Stop(pr: int, ts: seq<int>, xs: seq<int>, vs: seq<int>, k: nat): (n: nat)
    requires k <= |ts| == |xs| == |vs|
    ensures k <= n <= |ts| && forall j: nat :: k <= j < n ==> PassedOver(pr, ts, xs, vs, j)
    ensures n < |ts| ==> !PassedOver(pr, ts, xs, vs, n)
    ensures k < |ts| && pr <= xs[|xs| - 1] ==> n < |ts|
    decreases |ts| - k
  {
    if k < |ts| && PassedOver(pr, ts, xs, vs, k) then Stop(pr, ts, xs, vs, k + 1) else k
  }

  /** What the search returns: at once in the last segment if the price lies above all starts, else where it stops. */
  function Answer(pr: int, ts: seq<int>, xs: seq<int>, vs: seq<int>): int
    requires 0 < |ts| == |xs| == |vs|
  {
    var n := |ts| - 1;
    if xs[n] < pr then
      if 0 < vs[n] && Steps(pr, xs[n], vs[n]) <= ts[0] + 1000 - ts[n] then ts[n] + Steps(pr, xs[n], vs[n]) else -1
    else
      var k := Stop(pr, ts, xs, vs, 0);
      if pr <= xs[k] then ts[k] else Wrap64(ts[k] + Steps(pr, xs[k], vs[k]))
  }

  /** The search stops at a segment whose quotient fits int64 while its sum with the segment's time does not. */
  predicate Wraps(pr: int, ts: seq<int>, xs: seq<int>, vs: seq<int>)
    requires 0 < |ts| == |xs| == |vs|
  {
    && pr <= xs[|xs| - 1]
    && var k := Stop(pr, ts, xs, vs, 0);
       xs[k] < pr && INT64_BOUND <= ts[k] + Steps(pr, xs[k], vs[k])
  }

  lemma StepsAreLeast(pr: int, x: int, v: int, d: int)
    requires x < pr && 0 < v
    ensures 1 <= Steps(pr, x, v)
    ensures pr <= x + v * d <==> Steps(pr, x, v) <= d
  {
    var y := Steps(pr, x, v);
    var n := pr - x + v - 1;
    assert n == v * y + n % v;
    assert v * (d - y) == v * d - v * y;
    MultipleBound(v, d - y);
    MultipleBound(v, y);
    assert v * 0 == 0;
  }

  lemma SlopeGrows(v: int, a: int, b: int)
    requires 0 <= v && a <= b
    ensures v * a <= v * b
  {
    assert v * b - v * a == v * (b - a);
    ProductNonNegative(v, b - a);
  }

  /** On a curve that never drops, every value of an earlier segment is at most the start of a later one. */
  lemma {:induction false} EarlierIsLower(ts: seq<int>, xs: seq<int>, vs: seq<int>, j: nat, k: nat, t: int)
    requires Shape(ts, xs, vs) && NeverDrops(ts, xs, vs)
    requires j < k < |ts| && Covers(ts, j, t)
    ensures Value(ts, xs, vs, j, t) <= xs[k]
    decreases k
  {
    if j + 1 == k {
      SlopeGrows(vs[j], t - ts[j], ts[k] - ts[j]);
    } else {
      EarlierIsLower(ts, xs, vs, j, k - 1, t);
      ProductNonNegative(vs[k - 1], ts[k] - ts[k - 1]);
    }
  }

  // ---- The search ----------------------------------------------------------------------------------------

  /** calcOnSale, with its int64 test and its int64 addition. */
  method CalcOnSale(pr: int, ts: seq<int>, xs: seq<int>, vs: seq<int>) returns (r: int)
    requires Shape(ts, xs, vs)
    ensures r == Answer(pr, ts, xs, vs)
    ensures 0 <= ts[0] && NeverDrops(ts, xs, vs) ==> (IsFirst(pr, ts, xs, vs, r) <==> !Wraps(pr, ts, xs, vs))
    ensures Wraps(pr, ts, xs, vs) ==> r < -1
  {
    if pr > xs[|xs| - 1] {
      r := SearchLast(pr, ts, xs, vs);
    } else {
      r := SearchAll(pr, ts, xs, vs);
    }
    AnswerSign(pr, ts, xs, vs);
    if 0 <= ts[0] && NeverDrops(ts, xs, vs) {
      AnswerIsFirst(pr, ts, xs, vs);
    }
  }

  lemma WrapFits(x: int)
    requires -INT64_BOUND <= x < 2 * INT64_BOUND
    ensures x < INT64_BOUND ==> Wrap64(x) == x
    ensures INT64_BOUND <= x ==> Wrap64(x) == x - 2 * INT64_BOUND
  {
  }

  method SearchLast(pr: int, ts: seq<int>, xs: seq<int>, vs: seq<int>) returns (r: int)
    requires Shape(ts, xs, vs) && xs[|xs| - 1] < pr
    ensures r == Answer(pr, ts, xs, vs)
  {
    var idx := |ts| - 1;
    if vs[idx] > 0 {
      var z := xs[idx] + vs[idx] * (ts[0] + 1000 - ts[idx]);
      StepsAreLeast(pr, xs[idx], vs[idx], ts[0] + 1000 - ts[idx]);
      if pr > z {
        return -1;
      }
      var y := Steps(pr, xs[idx], vs[idx]);
      WrapFits(ts[idx] + y);
      if y < INT64_BOUND {
        var t := Wrap64(ts[idx] + y);
        if t <= ts[0] + 1000 {
          return t;
        }
      }
    }
    return -1;
  }

  method SearchAll(pr: int, ts: seq<int>, xs: seq<int>, vs: seq<int>) returns (r: int)
    requires Shape(ts, xs, vs) && pr <= xs[|xs| - 1]
    ensures r == Answer(pr, ts, xs, vs)
  {
    r := -1;
    var idx := 0;
    while idx < |ts|
      invariant 0 <= idx < |ts| && r == -1
      invariant Stop(pr, ts, xs, vs, 0) == Stop(pr, ts, xs, vs, idx)
    {
      if pr <= xs[idx] {
        return ts[idx];
      }
      if vs[idx] > 0 {
        var y := Steps(pr, xs[idx], vs[idx]);
        if y < INT64_BOUND {
          var t := Wrap64(ts[idx] + y);
          if !(idx + 1 < |ts| && t >= ts[idx + 1]) {
            return t;
          }
        }
      }
      assert PassedOver(pr, ts, xs, vs, idx);
      idx := idx + 1;
    }
  }

  // ---- What the answer means ---------------------------------------------------------------------------------

  /** Where the search stops below the price it adds a quotient that fits int64. */
  lemma StopsBelow(pr: int, ts: seq<int>, xs: seq<int>, vs: seq<int>) returns (k: nat, y: int)
    requires Shape(ts, xs, vs) && pr <= xs[|xs| - 1]
    ensures k == Stop(pr, ts, xs, vs, 0) < |ts|
    ensures xs[k] < pr ==> 0 < vs[k] && y == Steps(pr, xs[k], vs[k]) && 1 <= y < INT64_BOUND
    ensures xs[k] < pr && ts[k] + y < INT64_BOUND ==> Wrap64(ts[k] + y) == ts[k] + y
    ensures xs[k] < pr && INT64_BOUND <= ts[k] + y ==> Wrap64(ts[k] + y) < -1
  {
    k, y := Stop(pr, ts, xs, vs, 0), 0;
    assert !PassedOver(pr, ts, xs, vs, |ts| - 1);
    if xs[k] < pr {
      y := Steps(pr, xs[k], vs[k]);
      StepsAreLeast(pr, xs[k], vs[k], 0);
      WrapFits(ts[k] + y);
    }
  }

  /** A wrapped sum is below every answer the search can mean, and without one nothing is negative but "none". */
  lemma AnswerSign(pr: int, ts: seq<int>, xs: seq<int>, vs: seq<int>)
    requires Shape(ts, xs, vs)
    ensures Wraps(pr, ts, xs, vs) ==> Answer(pr, ts, xs, vs) < -1
    ensures !Wraps(pr, ts, xs, vs) ==> Answer(pr, ts, xs, vs) == -1 || ts[0] <= Answer(pr, ts, xs, vs)
    ensures pr <= xs[|xs| - 1] && !Wraps(pr, ts, xs, vs) ==> ts[0] <= Answer(pr, ts, xs, vs)
  {
    if pr <= xs[|xs| - 1] {
      var k, y := StopsBelow(pr, ts, xs, vs);
      assert k == 0 || ts[0] < ts[k];
    } else if 0 < vs[|ts| - 1] {
      StepsAreLeast(pr, xs[|ts| - 1], vs[|ts| - 1], 0);
      assert |ts| == 1 || ts[0] < ts[|ts| - 1];
    }
  }

  /** Where segment idx stands relative to the price, once its start is below it and its slope is positive. */
  lemma SegmentBelow(pr: int, ts: seq<int>, xs: seq<int>, vs: seq<int>, idx: nat)
    requires Shape(ts, xs, vs) && idx < |ts| && xs[idx] < pr && 0 < vs[idx]
    ensures 1 <= Steps(pr, xs[idx], vs[idx])
    ensures forall t :: Covers(ts, idx, t) ==>
      (pr <= Value(ts, xs, vs, idx, t) <==> ts[idx] + Steps(pr, xs[idx], vs[idx]) <= t)
  {
    forall t | Covers(ts, idx, t)
      ensures pr <= Value(ts, xs, vs, idx, t) <==> ts[idx] + Steps(pr, xs[idx], vs[idx]) <= t
    {
      StepsAreLeast(pr, xs[idx], vs[idx], t - ts[idx]);
    }
    StepsAreLeast(pr, xs[idx], vs[idx], 0);
  }

  lemma PassedMeansBelow(pr: int, ts: seq<int>, xs: seq<int>, vs: seq<int>, k: nat, t: int)
    requires Shape(ts, xs, vs) && NeverDrops(ts, xs, vs) && k < |ts| && PassedOver(pr, ts, xs, vs, k)
      && Covers(ts, k, t)
    ensures Value(ts, xs, vs, k, t) < pr
  {
    if 0 < vs[k] {
      SegmentBelow(pr, ts, xs, vs, k);
      if Steps(pr, xs[k], vs[k]) < INT64_BOUND {
        WrapFits(ts[k] + Steps(pr, xs[k], vs[k]));
      }
    } else {
      assert vs[k] == 0;
    }
  }

  /**
   If the segments before k stay below the price and t is the first time in segment k that covers it, t is the
   answer.
   */
  lemma FirstInSegment(pr: int, ts: seq<int>, xs: seq<int>, vs: seq<int>, k: nat, t: int)
    requires Shape(ts, xs, vs) && k < |ts|
    requires forall j, u :: 0 <= j < k && Covers(ts, j, u) ==> Value(ts, xs, vs, j, u) < pr
    requires Covers(ts, k, t) && pr <= Value(ts, xs, vs, k, t)
    requires forall u :: Covers(ts, k, u) && u < t ==> Value(ts, xs, vs, k, u) < pr
    ensures 0 <= ts[0] ==> IsFirst(pr, ts, xs, vs, t)
  {
    forall j | k < j < |ts| ensures t < ts[j] {
      assert t < ts[k + 1] && (j == k + 1 || ts[k + 1] < ts[j]);
    }
  }

  /** On a curve that never drops the answer is the first covering time, or -1, exactly if the search does not wrap. */
  lemma AnswerIsFirst(pr: int, ts: seq<int>, xs: seq<int>, vs: seq<int>)
    requires Shape(ts, xs, vs) && 0 <= ts[0] && NeverDrops(ts, xs, vs)
    ensures IsFirst(pr, ts, xs, vs, Answer(pr, ts, xs, vs)) <==> !Wraps(pr, ts, xs, vs)
  {
    if pr <= xs[|xs| - 1] {
      StopIsFirst(pr, ts, xs, vs);
    } else {
      LastIsFirst(pr, ts, xs, vs);
    }
  }

  lemma StopIsFirst(pr: int, ts: seq<int>, xs: seq<int>, vs: seq<int>)
    requires Shape(ts, xs, vs) && 0 <= ts[0] && NeverDrops(ts, xs, vs) && pr <= xs[|xs| - 1]
    ensures IsFirst(pr, ts, xs, vs, Answer(pr, ts, xs, vs)) <==> !Wraps(pr, ts, xs, vs)
  {
    AnswerSign(pr, ts, xs, vs);
    if Wraps(pr, ts, xs, vs) {
      NegativeIsNotFirst(pr, ts, xs, vs, Answer(pr, ts, xs, vs));
    } else {
      UnwrappedIsFirst(pr, ts, xs, vs);
    }
  }

  lemma NegativeIsNotFirst(pr: int, ts: seq<int>, xs: seq<int>, vs: seq<int>, r: int)
    requires Shape(ts, xs, vs) && 0 <= ts[0] && r < -1
    ensures !IsFirst(pr, ts, xs, vs, r)
  {
    forall k | 0 <= k < |ts| ensures ts[0] <= ts[k] {
      assert k == 0 || ts[0] < ts[k];
    }
  }

  lemma UnwrappedIsFirst(pr: int, ts: seq<int>, xs: seq<int>, vs: seq<int>)
    requires Shape(ts, xs, vs) && 0 <= ts[0] && NeverDrops(ts, xs, vs) && pr <= xs[|xs| - 1]
    requires !Wraps(pr, ts, xs, vs)
    ensures IsFirst(pr, ts, xs, vs, Answer(pr, ts, xs, vs))
  {
    var k, y := StopsBelow(pr, ts, xs, vs);
    forall j, u | 0 <= j < k && Covers(ts, j, u)
      ensures Value(ts, xs, vs, j, u) < pr
    {
      PassedMeansBelow(pr, ts, xs, vs, j, u);
    }
    hide IsFirst, NeverDrops;
    if pr <= xs[k] {
      assert Covers(ts, k, ts[k]);
      FirstInSegment(pr, ts, xs, vs, k, ts[k]);
    } else {
      SegmentBelow(pr, ts, xs, vs, k);
      assert Covers(ts, k, ts[k] + y);
      FirstInSegment(pr, ts, xs, vs, k, ts[k] + y);
    }
  }

  lemma LastIsFirst(pr: int, ts: seq<int>, xs: seq<int>, vs: seq<int>)
    requires Shape(ts, xs, vs) && 0 <= ts[0] && NeverDrops(ts, xs, vs) && xs[|xs| - 1] < pr
    ensures IsFirst(pr, ts, xs, vs, Answer(pr, ts, xs, vs))
  {
    var n := |ts| - 1;
    forall j, u | 0 <= j < n && Covers(ts, j, u) ensures Value(ts, xs, vs, j, u) < pr {
      EarlierIsLower(ts, xs, vs, j, n, u);
    }
    if 0 < vs[n] {
      SegmentBelow(pr, ts, xs, vs, n);
      var t := ts[n] + Steps(pr, xs[n], vs[n]);
      if t <= ts[0] + 1000 {
        assert Covers(ts, n, t);
        FirstInSegment(pr, ts, xs, vs, n, t);
      }
    }
  }

  /** Under a higher curve the search finds a time whenever it does under the lower one, unless it wraps. */
  lemma HigherIsFound(pr: int, ts: seq<int>, xs: seq<int>, ys: seq<int>, vs: seq<int>)
    requires Shape(ts, xs, vs) && Shape(ts, ys, vs) && 0 <= ts[0] && forall k :: 0 <= k < |ts| ==> xs[k] <= ys[k]
    requires 0 <= Answer(pr, ts, xs, vs)
    ensures 0 <= Answer(pr, ts, ys, vs) <==> !Wraps(pr, ts, ys, vs)
  {
    var n := |ts| - 1;
    AnswerSign(pr, ts, ys, vs);
    if ys[n] < pr {
      assert xs[n] < pr && 0 < vs[n];
      StepsAreLeast(pr, ys[n], vs[n], Steps(pr, xs[n], vs[n]));
      StepsAreLeast(pr, xs[n], vs[n], Steps(pr, xs[n], vs[n]));
    }
  }

  /**
   A legal price close to 2^63 above the balance: the sum wraps and the item is missed, although the next
   millisecond's add pays for it.
   */
  lemma OverflowExample()
    ensures var pr, ts, xs, vs := 9223372036854775000, [1500000000000, 1500000000001], [0, 9223372036854776001], [1, 1];
            Shape(ts, xs, vs) && Wraps(pr, ts, xs, vs) && Answer(pr, ts, xs, vs) < -1
              && IsFirst(pr, ts, xs, vs, 1500000000001)
  {
    var pr, ts, xs, vs := 9223372036854775000, [1500000000000, 1500000000001], [0, 9223372036854776001], [1, 1];
    assert Steps(pr, xs[0], vs[0]) == pr;
    WrapFits(ts[0] + pr);
    assert !PassedOver(pr, ts, xs, vs, 0);
    assert Stop(pr, ts, xs, vs, 0) == 0;
    assert Covers(ts, 1, 1500000000001);
  }

  /**
   The higher the balance, the earlier the answer: where the lower curve reaches the price, the higher one has done
   so by then.
   */
  lemma FirstIsAntitone(pr: int, ts: seq<int>, xs: seq<int>, ys: seq<int>, vs: seq<int>, r: int, s: int)
    requires Shape(ts, xs, vs) && Shape(ts, ys, vs) && forall k :: 0 <= k < |ts| ==> xs[k] <= ys[k]
    requires IsFirst(pr, ts, xs, vs, r) && IsFirst(pr, ts, ys, vs, s) && r != -1
    ensures s != -1 && s <= r
  {
    var k :| Covers(ts, k, r) && pr <= Value(ts, xs, vs, k, r);
    assert Value(ts, xs, vs, k, r) <= Value(ts, ys, vs, k, r);
  }

  // ---- The search on a window's schedule ----------------------------------------------------------------

  ghost predicate PointsOf(ps: seq<Point>, ts: seq<int>, xs: seq<int>, vs: seq<int>)
  {
    && |ts| == |xs| == |vs| == |ps|
    && forall k :: 0 <= k < |ps| ==> ps[k] == Point(ts[k], xs[k], vs[k])
  }

  function Times(ps: seq<Point>): seq<int> { seq(|ps|, k requires 0 <= k < |ps| => ps[k].time) }
  function Values(ps: seq<Point>): seq<int> { seq(|ps|, k requires 0 <= k < |ps| => ps[k].milliIsu) }
  function Slopes(ps: seq<Point>): seq<int> { seq(|ps|, k requires 0 <= k < |ps| => ps[k].totalPower) }

  lemma ColumnsOf(ps: seq<Point>, ts: seq<int>, xs: seq<int>, vs: seq<int>)
    requires PointsOf(ps, ts, xs, vs)
    ensures ts == Times(ps) && xs == Values(ps) && vs == Slopes(ps)
  {
  }

  /** What a validator takes for an item's on-sale time: 0 if affordable at once, else what the search finds. */
  function Searched(w: Window, need: int): Option<int>
  {
    if need <= w.base then Some(0)
    else
      var ps := ScheduleTo(w, Horizon(w));
      var t := Answer(need, Times(ps), Values(ps), Slopes(ps));
      if t >= 0 then Some(t) else None
  }

  /** The search for this price on this window's schedule wraps. */
  predicate WindowWraps(w: Window, need: int)
  {
    var ps := ScheduleTo(w, Horizon(w));
    Wraps(need, Times(ps), Values(ps), Slopes(ps))
  }

  lemma RisesTo(w: Window, ps: seq<Point>, k: nat)
    requires Growing(w) && ps == ScheduleTo(w, Horizon(w)) && 0 < k < |ps|
    requires forall i :: 0 < i < |ps| ==> ps[i - 1].time < ps[i].time
    requires w.start <= ps[k - 1].time && ps[k].time <= Horizon(w) && ps[k] == PointAt(w, ps[k].time)
    ensures ps[k - 1].milliIsu + ps[k - 1].totalPower * (ps[k].time - ps[k - 1].time) <= ps[k].milliIsu
  {
    var s, t, v := ps[k - 1].time, ps[k].time, ps[k - 1].totalPower;
    ScheduleExtrapolates(w, t - 1, k - 1);
    PowerNowGrows(w, w.start, t - 1);
    assert v * (t - s) == v * (t - 1 - s) + v;
  }

  ghost predicate Rises(ps: seq<Point>)
  {
    && (forall k :: 0 <= k < |ps| ==> 0 <= ps[k].totalPower)
    && (forall k :: 0 < k < |ps| ==>
      ps[k - 1].milliIsu + ps[k - 1].totalPower * (ps[k].time - ps[k - 1].time) <= ps[k].milliIsu)
  }

  lemma ScheduleRises(w: Window, ps: seq<Point>)
    requires Growing(w) && ps == ScheduleTo(w, Horizon(w))
    ensures Rises(ps)
  {
    ScheduleIsExact(w, Horizon(w));
    forall k | 0 <= k < |ps| ensures 0 <= ps[k].totalPower {
      PowerNowGrows(w, w.start, ps[k].time);
    }
    forall k | 0 < k < |ps|
      ensures ps[k - 1].milliIsu + ps[k - 1].totalPower * (ps[k].time - ps[k - 1].time) <= ps[k].milliIsu
    {
      RisesTo(w, ps, k);
    }
  }

  lemma ScheduleHasShape(w: Window, ts: seq<int>, xs: seq<int>, vs: seq<int>)
    requires -INT64_BOUND <= w.start && Horizon(w) < INT64_BOUND
    requires PointsOf(ScheduleTo(w, Horizon(w)), ts, xs, vs)
    ensures Shape(ts, xs, vs)
    ensures Growing(w) ==> NeverDrops(ts, xs, vs)
  {
    var ps := ScheduleTo(w, Horizon(w));
    ScheduleIsExact(w, Horizon(w));
    forall j, k | 0 <= j < k < |ts| ensures ts[j] < ts[k] {
      TimesIncrease(ps, j, k);
    }
    if Growing(w) {
      ScheduleRises(w, ps);
      RisingNeverDrops(ps, ts, xs, vs);
    }
  }

  lemma RisingNeverDrops(ps: seq<Point>, ts: seq<int>, xs: seq<int>, vs: seq<int>)
    requires PointsOf(ps, ts, xs, vs) && Shape(ts, xs, vs) && Rises(ps)
    ensures NeverDrops(ts, xs, vs)
  {
    forall k | 0 < k < |ts| ensures xs[k - 1] + vs[k - 1] * (ts[k] - ts[k - 1]) <= xs[k] {
      assert ps[k - 1].milliIsu + ps[k - 1].totalPower * (ps[k].time - ps[k - 1].time) <= ps[k].milliIsu;
    }
  }

  lemma SegmentValue(w: Window, ts: seq<int>, xs: seq<int>, vs: seq<int>, k: nat, t: int)
    requires PointsOf(ScheduleTo(w, Horizon(w)), ts, xs, vs) && Shape(ts, xs, vs) && Covers(ts, k, t)
    ensures w.start <= t <= Horizon(w) && BalanceNow(w, t) == Value(ts, xs, vs, k, t)
  {
    assert k == 0 || ts[0] < ts[k];
    ScheduleExtrapolates(w, t, k);
  }

  /** On a window's schedule the search's answer is the window's on-sale time. */
  lemma FirstIsOnSale(w: Window, pr: int, ts: seq<int>, xs: seq<int>, vs: seq<int>, r: int)
    requires 0 <= w.start && Horizon(w) < INT64_BOUND && w.base < pr
    requires PointsOf(ScheduleTo(w, Horizon(w)), ts, xs, vs)
    requires Shape(ts, xs, vs) && IsFirst(pr, ts, xs, vs, r)
    ensures OnSaleTo(w, pr, Horizon(w)) == if r == -1 then None else Some(r)
  {
    OnSaleIsFirst(w, pr, Horizon(w));
    assert ts[0] == w.start;
    hide PointsOf, Shape, ScheduleTo, OnSaleTo;
    forall t | w.start <= t <= Horizon(w) && (r == -1 || t < r) ensures BalanceNow(w, t) < pr {
      var k := SegmentAt(ts, xs, vs, t);
      SegmentValue(w, ts, xs, vs, k, t);
    }
    if r != -1 {
      var k :| Covers(ts, k, r) && pr <= Value(ts, xs, vs, k, r);
      SegmentValue(w, ts, xs, vs, k, r);
    }
  }

  lemma ColumnsWrap(w: Window, need: int, ts: seq<int>, xs: seq<int>, vs: seq<int>)
    requires PointsOf(ScheduleTo(w, Horizon(w)), ts, xs, vs) && Wraps(need, ts, xs, vs)
    ensures WindowWraps(w, need)
  {
    ColumnsOf(ScheduleTo(w, Horizon(w)), ts, xs, vs);
  }

  /** A price within the last scheduled balance is reached in the window. */
  lemma ReachedIsOnSale(w: Window, need: int)
    requires need <= ScheduleTo(w, Horizon(w))[|ScheduleTo(w, Horizon(w))| - 1].milliIsu
    ensures OnSaleTo(w, need, Horizon(w)).Some?
  {
    var ps := ScheduleTo(w, Horizon(w));
    ScheduleIsExact(w, Horizon(w));
    OnSaleIsFirst(w, need, Horizon(w));
    assert need <= BalanceNow(w, ps[|ps| - 1].time);
  }

  /**
   On a growing window the search gives the on-sale time, unless it wraps; then the item is missed although it is on
   sale.
   */
  lemma SearchedIsOnSale(w: Window, need: int)
    requires 0 <= w.start && Horizon(w) < INT64_BOUND && Growing(w)
    ensures !WindowWraps(w, need) ==> Searched(w, need) == OnSaleTo(w, need, Horizon(w))
    ensures WindowWraps(w, need) ==> Searched(w, need).None? && OnSaleTo(w, need, Horizon(w)).Some?
  {
    var ps := ScheduleTo(w, Horizon(w));
    var ts, xs, vs := Times(ps), Values(ps), Slopes(ps);
    ScheduleHasShape(w, ts, xs, vs);
    AnswerSign(need, ts, xs, vs);
    AnswerIsFirst(need, ts, xs, vs);
    OnSaleIsFirst(w, need, Horizon(w));
    if need <= w.base {
      assert xs[0] == w.base && Stop(need, ts, xs, vs, 0) == 0;
      OnSaleAtOnce(w, need, Horizon(w));
    } else if WindowWraps(w, need) {
      ReachedIsOnSale(w, need);
    } else {
      FirstIsOnSale(w, need, ts, xs, vs, Answer(need, ts, xs, vs));
    }
  }

  lemma {:induction false} OnSaleAtOnce(w: Window, need: int, t: int)
    requires need <= w.base
    ensures OnSaleTo(w, need, t) == Some(0)
    decreases t - w.start
  {
    if w.start < t {
      OnSaleAtOnce(w, need, t - 1);
    }
  }

  lemma SegmentAt(ts: seq<int>, xs: seq<int>, vs: seq<int>, t: int) returns (k: nat)
    requires Shape(ts, xs, vs) && ts[0] <= t <= ts[0] + 1000
    ensures Covers(ts, k, t)
  {
    k := 0;
    while k + 1 < |ts| && ts[k + 1] <= t
      invariant k < |ts| && ts[k] <= t
      decreases |ts| - k
    {
      k := k + 1;
    }
  }
}
