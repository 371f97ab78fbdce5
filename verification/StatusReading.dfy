/**
 How a validator reads a received status: copies 1..count_built of each item as built, the rest up to
 count_bought as rows still to come, and from them the window the status should show.
 */
module StatusReading {
  import opened Common
  import opened Ledger
  import opened Status
  import opened Sums
  import opened Windows

  /** The rows for copies lo+1..hi of an item, timed by f. */
  function Copies(item: int, lo: nat, hi: nat, f: (int, nat) -> int): seq<Buying>
    decreases hi
  {
    if hi <= lo then [] else Copies(item, lo, hi - 1, f) + [Buying(item, hi, f(item, hi))]
  }

  /** A list of rows per item, item by item. */
  function Flatten(items: seq<ItemStatus>, g: ItemStatus -> seq<Buying>): seq<Buying>
  {
    if |items| == 0 then [] else Flatten(items[..|items| - 1], g) + g(items[|items| - 1])
  }

  function BuiltPart(f: (int, nat) -> int): ItemStatus -> seq<Buying> {
    (x: ItemStatus) => Copies(x.itemId, 0, x.countBuilt, f)
  }

  function FuturePart(f: (int, nat) -> int): ItemStatus -> seq<Buying> {
    (x: ItemStatus) => Copies(x.itemId, x.countBuilt, x.countBought, f)
  }

  /** Rows by time, in order. */
  function ByTime(bs: seq<Buying>): map<int, seq<Buying>>
  {
    if |bs| == 0 then map[]
    else
      var b, m := bs[|bs| - 1], ByTime(bs[..|bs| - 1]);
      m[b.time := GetOr(m, b.time, []) + [b]]
  }

  /** The future adds a status announces; a repeated time keeps its last entry. */
  function AddsOf(list: seq<Adding>): map<int, int>
  {
    if |list| == 0 then map[] else AddsOf(list[..|list| - 1])[list[|list| - 1].time := list[|list| - 1].isu]
  }

  function OnSaleTable(list: seq<OnSale>): map<int, int>
  {
    if |list| == 0 then map[] else OnSaleTable(list[..|list| - 1])[list[|list| - 1].itemId := list[|list| - 1].time]
  }

  function BuiltCounts(items: seq<ItemStatus>): map<int, nat>
  {
    if |items| == 0 then map[]
      else BuiltCounts(items[..|items| - 1])[items[|items| - 1].itemId := items[|items| - 1].countBuilt]
  }

  function BoughtCounts(items: seq<ItemStatus>): map<int, nat>
  {
    if |items| == 0 then map[]
      else BoughtCounts(items[..|items| - 1])[items[|items| - 1].itemId := items[|items| - 1].countBought]
  }

  /** What a built row has produced by c, without asking whether it is dated by then. */
  function Produced(ms: Masters, c: int): Buying -> int { (b: Buying) => Power(ms, b.item, b.ordinal) * (c - b.time) }

  function PowerTable(ms: Masters, built: seq<Buying>): map<int, int>
  {
    map i | i in ms :: Sum(built, ItemPowerRow(ms, i))
  }

  /** The opening balance for the given logged isu, built rows and coming rows. */
  function Opening(ms: Masters, c: int, isu: int, built: seq<Buying>, future: seq<Buying>): int
  {
    1000 * isu + Sum(built, Produced(ms, c)) - Sum(built, Cost(ms)) - Sum(future, Cost(ms))
  }

  function StatusWindow(ms: Masters, st: GameStatus, isu: int, built: seq<Buying>, future: seq<Buying>): Window
    requires |st.schedule| > 0
  {
    var c := st.schedule[0].time;
    Window(ms, c, Opening(ms, c, isu, built, future), Sum(built, PowerRow(ms)), PowerTable(ms, built),
      BuiltCounts(st.items),
           AddsOf(st.adding), ByTime(future))
  }

  // ---- The totals a validator accumulates ------------------------------------------------------------------------

  datatype Totals = Totals(milliIsu: int, totalPower: int, itemPower: map<int, int>, buyingAt: map<int, seq<Buying>>)

  function TotalsOf(ms: Masters, c: int, isu: int, built: seq<Buying>, future: seq<Buying>): Totals
  {
    Totals(Opening(ms, c, isu, built, future), Sum(built, PowerRow(ms)), PowerTable(ms, built), ByTime(future))
  }

  lemma PushBuiltRow(ms: Masters, c: int, isu: int, built: seq<Buying>, future: seq<Buying>, b: Buying)
    requires b.item in ms
    ensures Opening(ms, c, isu, built + [b], future)
         == Opening(ms, c, isu, built, future) - 1000 * Price(ms, b.item, b.ordinal)
           + Power(ms, b.item, b.ordinal) * (c - b.time)
    ensures Sum(built + [b], PowerRow(ms)) == Sum(built, PowerRow(ms)) + Power(ms, b.item, b.ordinal)
    ensures PowerTable(ms, built + [b])
      == PowerTable(ms, built)[b.item := PowerTable(ms, built)[b.item] + Power(ms, b.item, b.ordinal)]
  {
    SumPush(built, b, Produced(ms, c));
    SumPush(built, b, Cost(ms));
    SumPush(built, b, PowerRow(ms));
    forall i ensures Sum(built + [b], ItemPowerRow(ms, i)) == Sum(built, ItemPowerRow(ms, i)) + ItemPowerRow(ms, i)(b) {
      SumPush(built, b, ItemPowerRow(ms, i));
    }
    SameTable(PowerTable(ms, built + [b]),
      PowerTable(ms, built)[b.item := PowerTable(ms, built)[b.item] + Power(ms, b.item, b.ordinal)]);
  }

  lemma PushFutureRow(ms: Masters, c: int, isu: int, built: seq<Buying>, future: seq<Buying>, b: Buying)
    ensures Opening(ms, c, isu, built, future + [b])
      == Opening(ms, c, isu, built, future) - 1000 * Price(ms, b.item, b.ordinal)
    ensures ByTime(future + [b]) == ByTime(future)[b.time := GetOr(ByTime(future), b.time, []) + [b]]
  {
    SumPush(future, b, Cost(ms));
    assert (future + [b])[..|future|] == future;
  }

  // ---- Facts about the lists -------------------------------------------------------------------------------------

  lemma {:induction false} ByTimeAt(bs: seq<Buying>, t: int)
    ensures t in ByTime(bs) <==> Where(bs, DatedAt(t)) != []
    ensures GetOr(ByTime(bs), t, []) == Where(bs, DatedAt(t))
  {
    if |bs| > 0 {
      ByTimeAt(bs[..|bs| - 1], t);
    }
  }

  lemma {:induction false} CopiesHold(item: int, lo: nat, hi: nat, f: (int, nat) -> int)
    ensures forall b ::
      b in Copies(item, lo, hi, f) <==> b.item == item && lo < b.ordinal <= hi && b.time == f(item, b.ordinal)
    ensures Distinct(Copies(item, lo, hi, f))
    decreases hi
  {
    if lo < hi {
      CopiesHold(item, lo, hi - 1, f);
    }
  }

  ghost predicate UniqueIds(items: seq<ItemStatus>)
  {
    forall i, j :: 0 <= i < j < |items| ==> items[i].itemId != items[j].itemId
  }

  ghost predicate OwnRows(g: ItemStatus -> seq<Buying>, x: ItemStatus)
  {
    Distinct(g(x)) && forall b :: b in g(x) ==> b.item == x.itemId
  }

  lemma {:induction false} FlattenHolds(items: seq<ItemStatus>, g: ItemStatus -> seq<Buying>)
    requires UniqueIds(items) && forall x :: x in items ==> OwnRows(g, x)
    ensures forall b :: b in Flatten(items, g) <==> exists x :: x in items && b in g(x)
    ensures Distinct(Flatten(items, g))
  {
    if |items| > 0 {
      var n := |items| - 1;
      var rest, last := items[..n], items[n];
      FlattenHolds(rest, g);
      assert OwnRows(g, last);
      forall b ensures b in Flatten(items, g) <==> exists x :: x in items && b in g(x) {
        if b in Flatten(rest, g) {
          var x :| x in rest && b in g(x);
          assert x in items;
        } else if exists x :: x in items && b in g(x) {
          var x :| x in items && b in g(x);
          assert x in rest || x == last;
        }
      }
      forall b | b in Flatten(rest, g) ensures b !in g(last) {
        var x :| x in rest && b in g(x);
        assert OwnRows(g, x);
      }
      DistinctConcat(Flatten(rest, g), g(last));
    }
  }

  lemma DistinctConcat<T>(xs: seq<T>, ys: seq<T>)
    requires Distinct(xs) && Distinct(ys) && forall x :: x in xs ==> x !in ys
    ensures Distinct(xs + ys)
  {
    forall i, j | 0 <= i < j < |xs + ys| ensures (xs + ys)[i] != (xs + ys)[j] {
      if i < |xs| <= j {
        assert xs[i] in xs && ys[j - |xs|] in ys;
      }
    }
  }

  lemma {:induction false} CountsAreListed(items: seq<ItemStatus>)
    requires UniqueIds(items)
    ensures forall k :: 0 <= k < |items| ==>
      items[k].itemId in BuiltCounts(items) && BuiltCounts(items)[items[k].itemId] == items[k].countBuilt
      && items[k].itemId in BoughtCounts(items) && BoughtCounts(items)[items[k].itemId] == items[k].countBought
    ensures forall i :: i in BuiltCounts(items) <==> exists k :: 0 <= k < |items| && items[k].itemId == i
    ensures forall i :: i in BoughtCounts(items) <==> exists k :: 0 <= k < |items| && items[k].itemId == i
  {
    if |items| > 0 {
      CountsAreListed(items[..|items| - 1]);
    }
  }

  lemma {:induction false} ListedAddsAre(list: seq<Adding>, m: map<int, int>)
    requires ListsAdds(list, m)
    ensures AddsOf(list) == m
  {
    forall t ensures t in AddsOf(list) <==> exists k :: 0 <= k < |list| && list[k].time == t {
      AddsOfHolds(list, t);
    }
    forall t | t in AddsOf(list) ensures t in m && AddsOf(list)[t] == m[t] {
      AddsOfHolds(list, t);
    }
    SameTable(AddsOf(list), m);
  }

  lemma {:induction false} AddsOfHolds(list: seq<Adding>, t: int)
    ensures t in AddsOf(list) <==> exists k :: 0 <= k < |list| && list[k].time == t
    ensures t in AddsOf(list) ==> Adding(t, AddsOf(list)[t]) in list
  {
    if |list| > 0 {
      var n := |list| - 1;
      AddsOfHolds(list[..n], t);
      if exists k :: 0 <= k < n && list[..n][k].time == t {
        var k :| 0 <= k < n && list[..n][k].time == t;
        assert list[k].time == t;
      }
    }
  }

  lemma {:induction false} ListedTimesAre(list: seq<OnSale>, m: map<int, int>)
    requires ListsTimes(list, m)
    ensures OnSaleTable(list) == m
  {
    forall i ensures i in OnSaleTable(list) <==> exists k :: 0 <= k < |list| && list[k].itemId == i {
      OnSaleTableHolds(list, i);
    }
    forall i | i in OnSaleTable(list) ensures i in m && OnSaleTable(list)[i] == m[i] {
      OnSaleTableHolds(list, i);
    }
    SameTable(OnSaleTable(list), m);
  }

  lemma {:induction false} OnSaleTableHolds(list: seq<OnSale>, i: int)
    ensures i in OnSaleTable(list) <==> exists k :: 0 <= k < |list| && list[k].itemId == i
    ensures i in OnSaleTable(list) ==> OnSale(i, OnSaleTable(list)[i]) in list
  {
    if |list| > 0 {
      var n := |list| - 1;
      OnSaleTableHolds(list[..n], i);
      if exists k :: 0 <= k < n && list[..n][k].itemId == i {
        var k :| 0 <= k < n && list[..n][k].itemId == i;
        assert list[k].itemId == i;
      }
    }
  }
}
