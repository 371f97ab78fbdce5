/** The benchmark's log of requests, and the dictionaries and prefix sums it validates statuses against. */
module BenchLog {
  import opened Common
  import opened Rooms
  import opened Sums

  /** A logged request and what the client heard back. */
  datatype Entry = Entry(req: Request, answered: bool, success: bool)

  /** A purchase request's key: the item and how many copies it said were bought before. */
  datatype Copy = Copy(item: int, count: int)

  /** Successful requests, and those never answered (total isu, earliest and latest request time). */
  datatype Dicts = Dicts(
    adds: map<int, int>, addsOpen: map<int, int>,
    buys: map<Copy, int>, earliest: map<Copy, int>, latest: map<Copy, int>)

  predicate Succeeded(e: Entry) { e.answered && e.success }
  predicate AddsAt(e: Entry, t: int) { e.req.AddIsu? && e.req.time == t }
  predicate Buys(e: Entry, c: Copy) { e.req.BuyItem? && Copy(e.req.item, e.req.countBought) == c }

  function SucceededIsu(t: int): Entry -> int { (e: Entry) => if Succeeded(e) && AddsAt(e, t) then e.req.isu else 0 }
  function OpenIsu(t: int): Entry -> int { (e: Entry) => if !e.answered && AddsAt(e, t) then e.req.isu else 0 }

  ghost predicate AddsLogged(log: seq<Entry>, adds: map<int, int>)
  {
    && (forall t :: t in adds <==> exists e :: e in log && Succeeded(e) && AddsAt(e, t))
    && (forall t :: GetOr(adds, t, 0) == Sum(log, SucceededIsu(t)))
  }

  ghost predicate OpenAddsLogged(log: seq<Entry>, adds: map<int, int>)
  {
    && (forall t :: t in adds <==> exists e :: e in log && !e.answered && AddsAt(e, t))
    && (forall t :: GetOr(adds, t, 0) == Sum(log, OpenIsu(t)))
  }

  ghost predicate BuysLogged(log: seq<Entry>, buys: map<Copy, int>)
  {
    && (forall c :: c in buys <==> exists e :: e in log && Succeeded(e) && Buys(e, c))
    && (forall e, c :: e in log && Succeeded(e) && Buys(e, c) ==> buys[c] == e.req.time)
  }

  /** `earliest` and `latest` are the least and the greatest time among the unanswered requests for a copy. */
  ghost predicate OpenBuysLogged(log: seq<Entry>, earliest: map<Copy, int>, latest: map<Copy, int>)
  {
    && (forall c :: c in latest <==> c in earliest)
    && (forall e, c :: e in log && !e.answered && Buys(e, c) ==>
      c in earliest && earliest[c] <= e.req.time <= latest[c])
    && Attained(log, earliest) && Attained(log, latest)
  }

  ghost predicate Attained(log: seq<Entry>, m: map<Copy, int>)
  {
    forall c :: c in m ==> exists e :: e in log && !e.answered && Buys(e, c) && e.req.time == m[c]
  }

  ghost predicate DictsOf(log: seq<Entry>, d: Dicts)
  {
    AddsLogged(log, d.adds) && OpenAddsLogged(log, d.addsOpen) && BuysLogged(log, d.buys)
      && OpenBuysLogged(log, d.earliest, d.latest)
  }

  /** No two purchase requests of the same copy both report success. */
  ghost predicate NoDoubleSuccess(log: seq<Entry>)
  {
    forall j, k :: 0 <= j < k < |log| && Succeeded(log[j]) && Succeeded(log[k]) ==>
      log[j].req.BuyItem? && log[k].req.BuyItem? ==>
      log[j].req.item != log[k].req.item || log[j].req.countBought != log[k].req.countBought
  }

  ghost predicate LogAcceptable(isPreTest: bool, log: seq<Entry>)
  {
    && NoDoubleSuccess(log)
    && forall e :: e in log ==> (e.answered || !isPreTest) && (e.req.View? ==> e.answered && !e.success)
  }

  /** Both requests for one copy came back as successful. */
  predicate WonTwice(e: Entry, f: Entry)
  {
    && e.answered && e.success && e.req.BuyItem? && f.answered && f.success && f.req.BuyItem?
    && e.req.item == f.req.item && e.req.countBought == f.req.countBought
  }

  /**
   A log is acceptable exactly if no copy was won twice, nothing but adds and purchases was asked for, and, in the
   pretest, everything was answered.
   */
  lemma AcceptableExactly(isPreTest: bool, log: seq<Entry>)
    ensures LogAcceptable(isPreTest, log) <==>
      && !(exists j, k :: 0 <= j < k < |log| && WonTwice(log[j], log[k]))
      && !(exists e :: e in log && e.req.View? && (!e.answered || e.success))
      && (isPreTest ==> forall e :: e in log ==> e.answered)
  {
  }

  // ---- Reading the log ---------------------------------------------------------------------------------------

  function Added(adds: map<int, int>, t: int, isu: int): map<int, int> { adds[t := GetOr(adds, t, 0) + isu] }

  lemma PushSucceededAdd(log: seq<Entry>, e: Entry, adds: map<int, int>)
    requires AddsLogged(log, adds)
    ensures AddsLogged(log + [e], if Succeeded(e) && e.req.AddIsu? then Added(adds, e.req.time, e.req.isu) else adds)
  {
    var r := if Succeeded(e) && e.req.AddIsu? then Added(adds, e.req.time, e.req.isu) else adds;
    forall t ensures GetOr(r, t, 0) == Sum(log + [e], SucceededIsu(t)) {
      SumPush(log, e, SucceededIsu(t));
    }
    forall t ensures t in r <==> exists x :: x in log + [e] && Succeeded(x) && AddsAt(x, t) {
      if Succeeded(e) && AddsAt(e, t) {
        assert e in log + [e];
      } else if t in r {
        var x :| x in log && Succeeded(x) && AddsAt(x, t);
        assert x in log + [e];
      }
    }
  }

  lemma PushOpenAdd(log: seq<Entry>, e: Entry, adds: map<int, int>)
    requires OpenAddsLogged(log, adds)
    ensures OpenAddsLogged(log + [e], if !e.answered && e.req.AddIsu? then Added(adds, e.req.time, e.req.isu) else adds)
  {
    var r := if !e.answered && e.req.AddIsu? then Added(adds, e.req.time, e.req.isu) else adds;
    forall t ensures GetOr(r, t, 0) == Sum(log + [e], OpenIsu(t)) {
      SumPush(log, e, OpenIsu(t));
    }
    forall t ensures t in r <==> exists x :: x in log + [e] && !x.answered && AddsAt(x, t) {
      if !e.answered && AddsAt(e, t) {
        assert e in log + [e];
      } else if t in r {
        var x :| x in log && !x.answered && AddsAt(x, t);
        assert x in log + [e];
      }
    }
  }

  lemma PushSucceededBuy(log: seq<Entry>, e: Entry, buys: map<Copy, int>)
    requires BuysLogged(log, buys)
    requires Succeeded(e) && e.req.BuyItem? ==> Copy(e.req.item, e.req.countBought) !in buys
    ensures BuysLogged(log + [e], if Succeeded(e) && e.req.BuyItem?
      then buys[Copy(e.req.item, e.req.countBought) := e.req.time] else buys)
  {
    var r := if Succeeded(e) && e.req.BuyItem? then buys[Copy(e.req.item, e.req.countBought) := e.req.time] else buys;
    forall c ensures c in r <==> exists x :: x in log + [e] && Succeeded(x) && Buys(x, c) {
      if Succeeded(e) && Buys(e, c) {
        assert e in log + [e];
      } else if c in r {
        var x :| x in log && Succeeded(x) && Buys(x, c);
        assert x in log + [e];
      }
    }
  }

  function Earlier(m: map<Copy, int>, c: Copy, t: int): map<Copy, int> { if c !in m || t < m[c] then m[c := t] else m }
  function Later(m: map<Copy, int>, c: Copy, t: int): map<Copy, int> { if c !in m || t > m[c] then m[c := t] else m }

  lemma PushAttained(log: seq<Entry>, e: Entry, m: map<Copy, int>, r: map<Copy, int>)
    requires Attained(log, m)
    requires r == m || (!e.answered && e.req.BuyItem? && r == m[Copy(e.req.item, e.req.countBought) := e.req.time])
    ensures Attained(log + [e], r)
  {
    forall c | c in r ensures exists x :: x in log + [e] && !x.answered && Buys(x, c) && x.req.time == r[c] {
      if c in m && r[c] == m[c] {
        var x :| x in log && !x.answered && Buys(x, c) && x.req.time == m[c];
        assert x in log + [e];
      } else {
        assert e in log + [e] && Buys(e, c);
      }
    }
  }

  lemma PushOpenBuy(log: seq<Entry>, e: Entry, earliest: map<Copy, int>, latest: map<Copy, int>)
    requires OpenBuysLogged(log, earliest, latest) && !e.answered && e.req.BuyItem?
    ensures OpenBuysLogged(log + [e], Earlier(earliest, Copy(e.req.item, e.req.countBought), e.req.time),
                                      Later(latest, Copy(e.req.item, e.req.countBought), e.req.time))
  {
    var k, t := Copy(e.req.item, e.req.countBought), e.req.time;
    PushAttained(log, e, earliest, Earlier(earliest, k, t));
    PushAttained(log, e, latest, Later(latest, k, t));
  }

  lemma PushOtherBuy(log: seq<Entry>, e: Entry, earliest: map<Copy, int>, latest: map<Copy, int>)
    requires OpenBuysLogged(log, earliest, latest) && (e.answered || !e.req.BuyItem?)
    ensures OpenBuysLogged(log + [e], earliest, latest)
  {
    PushAttained(log, e, earliest, earliest);
    PushAttained(log, e, latest, latest);
  }

  /** One request of the log; None for the error exits. */
  method ReadEntry(isPreTest: bool, e: Entry, d: Dicts, ghost before: seq<Entry>) returns (r: Option<Dicts>)
    requires DictsOf(before, d)
    ensures r.None? <==>
      || (!e.answered && (isPreTest || e.req.View?))
      || (Succeeded(e) && (e.req.View? || (e.req.BuyItem? && Copy(e.req.item, e.req.countBought) in d.buys)))
    ensures r.Some? ==> DictsOf(before + [e], r.value)
  {
    PushSucceededAdd(before, e, d.adds);
    PushOpenAdd(before, e, d.addsOpen);
    if e.answered || !e.req.BuyItem? {
      PushOtherBuy(before, e, d.earliest, d.latest);
    }
    if !e.answered {
      PushSucceededBuy(before, e, d.buys);
      if isPreTest {
        return None;
      }
      match e.req {
        case AddIsu(isu, t) =>
          return Some(d.(addsOpen := Added(d.addsOpen, t, isu)));
        case BuyItem(item, n, t) =>
          PushOpenBuy(before, e, d.earliest, d.latest);
          return Some(d.(earliest := Earlier(d.earliest, Copy(item, n), t),
            latest := Later(d.latest, Copy(item, n), t)));
        case View(_) =>
          return None; // "something wrong 3"
      }
    }
    if e.success {
      match e.req {
        case AddIsu(isu, t) =>
          PushSucceededBuy(before, e, d.buys);
          return Some(d.(adds := Added(d.adds, t, isu)));
        case BuyItem(item, n, t) =>
          if Copy(item, n) in d.buys {
            return None;
          }
          PushSucceededBuy(before, e, d.buys);
          return Some(d.(buys := d.buys[Copy(item, n) := t]));
        case View(_) =>
          return None; // "something wrong 4"
      }
    }
    PushSucceededBuy(before, e, d.buys);
    return Some(d);
  }

  /** The request loop of the log validation: the dictionaries, unless some request is not acceptable. */
  method ReadLog(isPreTest: bool, log: seq<Entry>) returns (r: Option<Dicts>)
    ensures r.Some? <==> LogAcceptable(isPreTest, log)
    ensures r.Some? ==> DictsOf(log, r.value)
  {
    r := Some(Dicts(map[], map[], map[], map[], map[]));
    for k := 0 to |log|
      invariant r.Some? && DictsOf(log[..k], r.value)
      invariant LogAcceptable(isPreTest, log[..k])
    {
      var e := log[k];
      assert log[..k + 1] == log[..k] + [e];
      r := ReadEntry(isPreTest, e, r.value, log[..k]);
      if r.None? {
        RejectedEntry(isPreTest, log, k);
        return;
      }
      AcceptedEntry(isPreTest, log, k);
    }
    assert log[..|log|] == log;
  }

  lemma RejectedEntry(isPreTest: bool, log: seq<Entry>, k: nat)
    requires k < |log|
    requires var e := log[k];
      || (!e.answered && (isPreTest || e.req.View?))
      || (Succeeded(e)
        && (e.req.View?
          || (e.req.BuyItem? && exists x ::
            x in log[..k] && Succeeded(x) && Buys(x, Copy(e.req.item, e.req.countBought)))))
    ensures !LogAcceptable(isPreTest, log)
  {
    assert log[k] in log;
    if Succeeded(log[k]) && log[k].req.BuyItem? {
      var x :| x in log[..k] && Succeeded(x) && Buys(x, Copy(log[k].req.item, log[k].req.countBought));
      var j :| 0 <= j < k && log[j] == x;
    }
  }

  lemma AcceptedEntry(isPreTest: bool, log: seq<Entry>, k: nat)
    requires k < |log| && LogAcceptable(isPreTest, log[..k])
    requires var e := log[k];
      && (!e.answered ==> !isPreTest && !e.req.View?)
      && !(Succeeded(e) && e.req.View?)
      && (Succeeded(e) && e.req.BuyItem? ==>
            forall x :: x in log[..k] && Succeeded(x) ==> !Buys(x, Copy(e.req.item, e.req.countBought)))
    ensures LogAcceptable(isPreTest, log[..k + 1])
  {
    var e, before := log[k], log[..k];
    assert log[..k + 1] == before + [e];
    forall j | 0 <= j < k && Succeeded(before[j]) && Succeeded(e) && before[j].req.BuyItem? && e.req.BuyItem?
      ensures before[j].req.item != e.req.item || before[j].req.countBought != e.req.countBought
    {
      assert before[j] in before;
    }
  }

  lemma SameBuys(log: seq<Entry>, m: map<Copy, int>, n: map<Copy, int>)
    requires BuysLogged(log, m) && BuysLogged(log, n)
    ensures m == n
  {
    forall c | c in m ensures m[c] == n[c] {
      var e :| e in log && Succeeded(e) && Buys(e, c);
    }
    SameMap(m, n);
  }

  lemma SameOpenBuys(log: seq<Entry>, d: Dicts, e: Dicts)
    requires OpenBuysLogged(log, d.earliest, d.latest) && OpenBuysLogged(log, e.earliest, e.latest)
    ensures d.earliest == e.earliest && d.latest == e.latest
  {
    forall c ensures c in d.earliest <==> c in e.earliest {
      if c in d.earliest {
        var x :| x in log && !x.answered && Buys(x, c) && x.req.time == d.earliest[c];
      }
      if c in e.earliest {
        var x :| x in log && !x.answered && Buys(x, c) && x.req.time == e.earliest[c];
      }
    }
    forall c | c in d.earliest ensures d.earliest[c] == e.earliest[c] && d.latest[c] == e.latest[c] {
      var w :| w in log && !w.answered && Buys(w, c) && w.req.time == d.earliest[c];
      var x :| x in log && !x.answered && Buys(x, c) && x.req.time == e.earliest[c];
      var y :| y in log && !y.answered && Buys(y, c) && y.req.time == d.latest[c];
      var z :| z in log && !z.answered && Buys(z, c) && z.req.time == e.latest[c];
    }
    SameMap(d.earliest, e.earliest);
    SameMap(d.latest, e.latest);
  }

  lemma SameAdds(log: seq<Entry>, d: Dicts, e: Dicts)
    requires AddsLogged(log, d.adds) && AddsLogged(log, e.adds) && OpenAddsLogged(log, d.addsOpen)
      && OpenAddsLogged(log, e.addsOpen)
    ensures d.adds == e.adds && d.addsOpen == e.addsOpen
  {
    forall t: int | t in d.adds ensures d.adds[t] == e.adds[t] {
      assert GetOr(d.adds, t, 0) == GetOr(e.adds, t, 0);
    }
    forall t: int | t in d.addsOpen ensures d.addsOpen[t] == e.addsOpen[t] {
      assert GetOr(d.addsOpen, t, 0) == GetOr(e.addsOpen, t, 0);
    }
    SameTable(d.adds, e.adds);
    SameTable(d.addsOpen, e.addsOpen);
  }

  /** A log has one set of dictionaries. */
  lemma LogDeterminesDicts(log: seq<Entry>, d: Dicts, e: Dicts)
    requires DictsOf(log, d) && DictsOf(log, e)
    ensures d == e
  {
    SameAdds(log, d, e);
    SameBuys(log, d.buys, e.buys);
    SameOpenBuys(log, d, e);
  }

  // ---- The order of the log -------------------------------------------------------------------------------------

  /** The log lists the same requests in another order: its j-th is the place[j]-th. */
  ghost predicate Reorders(log: seq<Entry>, base: seq<Entry>, place: seq<nat>)
  {
    && |place| == |log| == |base| && Distinct(place)
    && forall j :: 0 <= j < |log| ==> place[j] < |base| && log[j] == base[place[j]]
  }

  function AmountAt(base: seq<Entry>, f: Entry -> int): nat -> int { (k: nat) => if k < |base| then f(base[k]) else 0 }

  lemma {:induction false} SumByPlace(log: seq<Entry>, base: seq<Entry>, place: seq<nat>, f: Entry -> int)
    requires |place| == |log| && forall j :: 0 <= j < |log| ==> place[j] < |base| && log[j] == base[place[j]]
    ensures Sum(log, f) == Sum(place, AmountAt(base, f))
  {
    if |log| > 0 {
      SumByPlace(log[..|log| - 1], base, place[..|log| - 1], f);
    }
  }

  function Places(n: nat): (s: set<nat>)
    ensures |s| == n && forall k: nat :: k in s <==> k < n
  {
    if n == 0 then {} else Places(n - 1) + {n - 1}
  }

  lemma EveryPlaceIsTaken(place: seq<nat>, k: nat)
    requires Distinct(place) && (forall j :: 0 <= j < |place| ==> place[j] < |place|) && k < |place|
    ensures k in place
  {
    DistinctCovers(place, Places(|place|), k);
  }

  lemma ReorderedSum(log: seq<Entry>, base: seq<Entry>, place: seq<nat>, f: Entry -> int)
    requires Reorders(log, base, place)
    ensures Sum(log, f) == Sum(base, f)
  {
    var n := |base|;
    var straight: seq<nat> := seq(n, k requires 0 <= k < n => k);
    SumByPlace(log, base, place, f);
    SumByPlace(base, base, straight, f);
    forall k: nat ensures k in place <==> k in straight {
      if k < n {
        EveryPlaceIsTaken(place, k);
        assert straight[k] == k;
      }
    }
    SameRowsSameSum(place, straight, AmountAt(base, f));
  }

  lemma ReorderedEntries(log: seq<Entry>, base: seq<Entry>, place: seq<nat>)
    requires Reorders(log, base, place)
    ensures forall e :: e in log <==> e in base
  {
    forall e ensures e in log <==> e in base {
      if e in base {
        var k :| 0 <= k < |base| && base[k] == e;
        EveryPlaceIsTaken(place, k);
        var j :| 0 <= j < |place| && place[j] == k;
        assert log[j] == e;
      }
    }
  }

  /** The dictionaries, and whether the log is acceptable, do not depend on the order in which requests were logged. */
  lemma LogOrderIsIrrelevant(log: seq<Entry>, base: seq<Entry>, place: seq<nat>, isPreTest: bool, d: Dicts)
    requires Reorders(log, base, place)
    ensures DictsOf(log, d) <==> DictsOf(base, d)
    ensures LogAcceptable(isPreTest, base) ==> LogAcceptable(isPreTest, log)
  {
    ReorderedEntries(log, base, place);
    forall t
      ensures Sum(log, SucceededIsu(t)) == Sum(base, SucceededIsu(t)) && Sum(log, OpenIsu(t)) == Sum(base, OpenIsu(t))
    {
      ReorderedSum(log, base, place, SucceededIsu(t));
      ReorderedSum(log, base, place, OpenIsu(t));
    }
    SameEntriesSameDicts(log, base, d);
  }

  lemma SameEntriesSameDicts(log: seq<Entry>, base: seq<Entry>, d: Dicts)
    requires forall e :: e in log <==> e in base
    requires forall t :: Sum(log, SucceededIsu(t)) == Sum(base, SucceededIsu(t))
    requires forall t :: Sum(log, OpenIsu(t)) == Sum(base, OpenIsu(t))
    ensures DictsOf(log, d) <==> DictsOf(base, d)
  {
    SameAddsLogged(log, base, d.adds, d.addsOpen);
    SameBuysLogged(log, base, d.buys);
    SameAttained(log, base, d.earliest);
    SameAttained(log, base, d.latest);
    hide AddsLogged, OpenAddsLogged, BuysLogged, Attained, Sum;
  }

  lemma SameAddsLogged(log: seq<Entry>, base: seq<Entry>, adds: map<int, int>, open: map<int, int>)
    requires forall e :: e in log <==> e in base
    requires forall t :: Sum(log, SucceededIsu(t)) == Sum(base, SucceededIsu(t))
    requires forall t :: Sum(log, OpenIsu(t)) == Sum(base, OpenIsu(t))
    ensures AddsLogged(log, adds) <==> AddsLogged(base, adds)
    ensures OpenAddsLogged(log, open) <==> OpenAddsLogged(base, open)
  {
  }

  lemma SameBuysLogged(log: seq<Entry>, base: seq<Entry>, buys: map<Copy, int>)
    requires forall e :: e in log <==> e in base
    ensures BuysLogged(log, buys) <==> BuysLogged(base, buys)
  {
  }

  lemma SameAttained(log: seq<Entry>, base: seq<Entry>, m: map<Copy, int>)
    requires forall e :: e in log <==> e in base
    ensures Attained(log, m) <==> Attained(base, m)
  {
  }

  // ---- Sums over the dictionaries -------------------------------------------------------------------------------

  function ValueBy(d: map<int, int>, c: int): int -> int { (t: int) => if t in d && t <= c then d[t] else 0 }

  /** A fixed listing of a set, for stating sums that do not depend on the order. */
  ghost function AnyOrder<T(!new)>(s: set<T>): (xs: seq<T>)
    ensures Distinct(xs) && forall x :: x in xs <==> x in s
    decreases |s|
  {
    if s == {} then []
    else
      var x :| x in s;
      AnyOrder(s - {x}) + [x]
  }

  /** The isu a dictionary holds for times up to c. */
  ghost function DictSum(d: map<int, int>, c: int): int { Sum(AnyOrder(d.Keys), ValueBy(d, c)) }

  lemma DictSumIs(d: map<int, int>, c: int, xs: seq<int>)
    requires Distinct(xs) && forall t :: t in xs <==> t in d
    ensures Sum(xs, ValueBy(d, c)) == DictSum(d, c)
  {
    var ys := AnyOrder(d.Keys);
    forall t ensures t in xs <==> t in ys {
      assert t in ys <==> t in d.Keys;
    }
    SameRowsSameSum(xs, ys, ValueBy(d, c));
  }

  ghost predicate Increasing(xs: seq<int>)
  {
    forall i, j :: 0 <= i < j < |xs| ==> xs[i] < xs[j]
  }

  /** The keys of a dictionary in increasing order. */
  method SortedKeys(s: set<int>) returns (xs: seq<int>)
    ensures Increasing(xs) && forall t :: t in xs <==> t in s
  {
    var ys := Listing(s);
    xs := [];
    for k := 0 to |ys|
      invariant Increasing(xs)
      invariant forall t :: t in xs <==> t in ys[..k]
    {
      assert ys[..k + 1] == ys[..k] + [ys[k]];
      xs := Insert(xs, ys[k]);
    }
    assert ys[..|ys|] == ys;
  }

  method Insert(xs: seq<int>, x: int) returns (r: seq<int>)
    requires Increasing(xs) && x !in xs
    ensures Increasing(r) && forall t :: t in r <==> t in xs || t == x
  {
    var k := |xs|;
    while k > 0 && x < xs[k - 1]
      invariant 0 <= k <= |xs|
      invariant forall j :: k <= j < |xs| ==> x < xs[j]
    {
      k := k - 1;
    }
    r := xs[..k] + [x] + xs[k..];
    InsertedElements(xs, x, k);
    if k > 0 {
      assert xs[k - 1] in xs;
    }
    InsertedInOrder(xs, x, k);
  }

  lemma InsertedElements(xs: seq<int>, x: int, k: nat)
    requires k <= |xs|
    ensures forall t :: t in xs[..k] + [x] + xs[k..] <==> t in xs || t == x
  {
    assert xs == xs[..k] + xs[k..];
    forall t ensures t in xs[..k] + [x] + xs[k..] <==> t in xs || t == x {
      assert t in xs <==> t in xs[..k] || t in xs[k..];
    }
  }

  lemma InsertedInOrder(xs: seq<int>, x: int, k: nat)
    requires Increasing(xs) && k <= |xs|
    requires forall j :: k <= j < |xs| ==> x < xs[j]
    requires k > 0 ==> xs[k - 1] < x
    ensures Increasing(xs[..k] + [x] + xs[k..])
  {
    forall j | 0 <= j < k ensures xs[j] < x {
      assert j == k - 1 || xs[j] < xs[k - 1];
    }
  }

  /** Prefix sums in milli-isu, by key. */
  method PrefixSums(d: map<int, int>) returns (keys: seq<int>, sums: map<int, int>)
    ensures IsPrefixTable(d, keys, sums)
  {
    keys := SortedKeys(d.Keys);
    sums := map[];
    var x := 0;
    hide Sum;
    for k := 0 to |keys|
      invariant 0 < k ==> x == 1000 * Sum(keys[..k], ValueBy(d, keys[k - 1]))
      invariant k == 0 ==> x == 0
      invariant forall j :: 0 <= j < k ==>
        keys[j] in sums && sums[keys[j]] == 1000 * Sum(keys[..j + 1], ValueBy(d, keys[j]))
    {
      var t := keys[k];
      assert t in keys;
      PrefixGrows(d, keys, k);
      x := x + 1000 * d[t];
      sums := sums[t := x];
    }
  }

  lemma PrefixGrows(d: map<int, int>, keys: seq<int>, k: nat)
    requires Increasing(keys) && k < |keys| && keys[k] in d
    ensures Sum(keys[..k + 1], ValueBy(d, keys[k]))
      == (if k == 0 then 0 else Sum(keys[..k], ValueBy(d, keys[k - 1]))) + d[keys[k]]
  {
    assert keys[..k + 1] == keys[..k] + [keys[k]];
    SumPush(keys[..k], keys[k], ValueBy(d, keys[k]));
    if 0 < k {
      SumBounded(d, keys[..k], keys[k - 1], keys[k]);
    }
  }

  /** Raising a bound that is already above every key changes nothing. */
  lemma SumBounded(d: map<int, int>, ks: seq<int>, c: int, e: int)
    requires forall i :: 0 <= i < |ks| ==> ks[i] <= c && ks[i] <= e
    ensures Sum(ks, ValueBy(d, c)) == Sum(ks, ValueBy(d, e))
  {
    SumAgree(ks, ValueBy(d, c), ValueBy(d, e));
  }

  ghost predicate IsPrefixTable(d: map<int, int>, keys: seq<int>, sums: map<int, int>)
  {
    && Increasing(keys) && (forall t :: t in keys <==> t in d)
    && forall k :: 0 <= k < |keys| ==>
      keys[k] in sums && sums[keys[k]] == 1000 * Sum(keys[..k + 1], ValueBy(d, keys[k]))
  }

  lemma PrefixEntry(d: map<int, int>, keys: seq<int>, sums: map<int, int>, i: nat, c: int)
    requires IsPrefixTable(d, keys, sums) && i < |keys| && keys[i] <= c
    requires forall j :: i < j < |keys| ==> c < keys[j]
    ensures sums[keys[i]] == 1000 * DictSum(d, c)
  {
    PrefixIsTotal(d, keys, i + 1, c);
    var ks := keys[..i + 1];
    forall j | 0 <= j < |ks| ensures ks[j] <= keys[i] {
      assert j == i || keys[j] < keys[i];
    }
    SumBounded(d, ks, keys[i], c);
  }

  /** The opening balance by prefix sum: the entry of the last key up to c. */
  method SumByPrefix(ghost d: map<int, int>, keys: seq<int>, sums: map<int, int>, c: int) returns (total: int)
    requires IsPrefixTable(d, keys, sums)
    ensures total == 1000 * DictSum(d, c)
  {
    var i := |keys|;
    while i > 0
      invariant 0 <= i <= |keys|
      invariant forall j :: i <= j < |keys| ==> c < keys[j]
    {
      i := i - 1;
      if keys[i] <= c {
        PrefixEntry(d, keys, sums, i, c);
        return sums[keys[i]];
      }
    }
    PrefixIsTotal(d, keys, 0, c);
    return 0;
  }

  lemma PrefixIsTotal(d: map<int, int>, keys: seq<int>, n: nat, c: int)
    requires Increasing(keys) && n <= |keys| && forall t :: t in keys <==> t in d
    requires forall j :: n <= j < |keys| ==> c < keys[j]
    ensures Sum(keys[..n], ValueBy(d, c)) == DictSum(d, c)
  {
    SumConcat(keys[..n], keys[n..], ValueBy(d, c));
    assert keys[..n] + keys[n..] == keys;
    Zeros(keys[n..], ValueBy(d, c));
    DictSumIs(d, c, keys);
  }

  lemma {:induction false} Zeros<T>(xs: seq<T>, f: T -> int)
    requires forall i :: 0 <= i < |xs| ==> f(xs[i]) == 0
    ensures Sum(xs, f) == 0
  {
    if |xs| > 0 {
      Zeros(xs[..|xs| - 1], f);
    }
  }

  /** The opening balance by a direct loop over the dictionary. */
  method SumDirectly(d: map<int, int>, c: int) returns (total: int)
    ensures total == 1000 * DictSum(d, c)
  {
    total := 0;
    var keys := Listing(d.Keys);
    for k := 0 to |keys|
      invariant total == 1000 * Sum(keys[..k], ValueBy(d, c))
    {
      var t := keys[k];
      assert t in keys;
      assert keys[..k + 1][..k] == keys[..k];
      if t <= c {
        total := total + 1000 * d[t];
      }
    }
    assert keys[..|keys|] == keys;
    DictSumIs(d, c, keys);
  }
}
