/**
 Soundness of the fast validator: whichever unanswered requests took effect, and whenever within their logged
 times, the two balances bracket the true one and the status the room computes is accepted.
 */
module Soundness {
  import opened BenchCheck
  import opened BenchLog
  import opened Common
  import opened Ledger
  import opened Status
  import opened StatusReading
  import opened Sums
  import opened TableReading

  // ---- When a log explains the tables --------------------------------------------------------------------------

  /** What the table holds up to c lies between what was confirmed and what was asked for; later rows were asked for. */
  ghost predicate AddsExplained(d: Dicts, adding: seq<Adding>, c: int)
  {
    && (forall t :: t <= c ==>
      GetOr(d.adds, t, 0) <= Sum(adding, IsuAt(t)) <= GetOr(d.adds, t, 0) + GetOr(d.addsOpen, t, 0))
    && (forall a :: a in adding && c < a.time ==> AddPossible(d, a))
  }

  /**
   The row is confirmed with its time, or lies between the earliest and the latest unanswered request for that copy.
   */
  predicate RowExplained(d: Dicts, b: Buying)
  {
    && 1 <= b.ordinal
    && var q := Copy(b.item, b.ordinal - 1);
       if q in d.buys then d.buys[q] == b.time
       else q in d.earliest && q in d.latest && d.earliest[q] <= b.time <= d.latest[q]
  }

  ghost predicate BuysExplained(d: Dicts, buying: seq<Buying>, c: int)
  {
    && (forall b :: b in buying ==> RowExplained(d, b))
    && (forall q :: q in d.buys && q.count == Bought(buying, q.item) ==> c < d.buys[q])
  }

  ghost predicate Explains(d: Dicts, adding: seq<Adding>, buying: seq<Buying>, c: int)
  {
    AddsExplained(d, adding, c) && BuysExplained(d, buying, c)
  }

  // ---- Logged isu --------------------------------------------------------------------------------------------------

  lemma DictSumOver(d: map<int, int>, c: int, ks: seq<int>)
    requires Distinct(ks) && forall t :: t in d ==> t in ks
    ensures Sum(ks, ValueBy(d, c)) == DictSum(d, c)
  {
    var p := (t: int) => t in d;
    DistinctWhere(ks, p);
    SumWhere(ks, p, ValueBy(d, c), ValueBy(d, c));
    DictSumIs(d, c, Where(ks, p));
  }

  ghost function AllKeys(d: map<int, int>, e: map<int, int>, f: map<int, int>): (ks: seq<int>)
    ensures Distinct(ks) && forall t :: t in d || t in e || t in f ==> t in ks
  {
    var ks := AnyOrder(d.Keys + e.Keys + f.Keys);
    assert forall t :: t in ks <==> t in d.Keys + e.Keys + f.Keys;
    ks
  }

  function BothBy(d: map<int, int>, e: map<int, int>, c: int): int -> int
  {
    (t: int) => ValueBy(d, c)(t) + ValueBy(e, c)(t)
  }

  lemma SumsAtMost(ks: seq<int>, d: map<int, int>, e: map<int, int>, c: int)
    requires forall t :: t <= c ==> GetOr(d, t, 0) <= GetOr(e, t, 0)
    ensures Sum(ks, ValueBy(d, c)) <= Sum(ks, ValueBy(e, c))
  {
    forall t ensures ValueBy(d, c)(t) <= ValueBy(e, c)(t) {
      assert t <= c ==> GetOr(d, t, 0) <= GetOr(e, t, 0);
    }
    SumAtMost(ks, ValueBy(d, c), ValueBy(e, c));
  }

  lemma SumsAtMostBoth(ks: seq<int>, d: map<int, int>, e: map<int, int>, f: map<int, int>, c: int)
    requires forall t :: t <= c ==> GetOr(d, t, 0) <= GetOr(e, t, 0) + GetOr(f, t, 0)
    ensures Sum(ks, ValueBy(d, c)) <= Sum(ks, ValueBy(e, c)) + Sum(ks, ValueBy(f, c))
  {
    forall t ensures ValueBy(d, c)(t) <= BothBy(e, f, c)(t) {
      assert t <= c ==> GetOr(d, t, 0) <= GetOr(e, t, 0) + GetOr(f, t, 0);
      assert BothBy(e, f, c)(t) == ValueBy(e, c)(t) + ValueBy(f, c)(t);
    }
    SumAtMost(ks, ValueBy(d, c), BothBy(e, f, c));
    SumLinear(ks, BothBy(e, f, c), ValueBy(e, c), 1, ValueBy(f, c));
  }

  lemma DictSumAtMost(d: map<int, int>, e: map<int, int>, c: int)
    requires forall t :: t <= c ==> GetOr(d, t, 0) <= GetOr(e, t, 0)
    ensures DictSum(d, c) <= DictSum(e, c)
  {
    var ks := AllKeys(d, e, e);
    DictSumOver(d, c, ks);
    DictSumOver(e, c, ks);
    SumsAtMost(ks, d, e, c);
  }

  lemma DictSumAtMostBoth(d: map<int, int>, e: map<int, int>, f: map<int, int>, c: int)
    requires forall t :: t <= c ==> GetOr(d, t, 0) <= GetOr(e, t, 0) + GetOr(f, t, 0)
    ensures DictSum(d, c) <= DictSum(e, c) + DictSum(f, c)
  {
    var ks := AllKeys(d, e, f);
    DictSumOver(d, c, ks);
    DictSumOver(e, c, ks);
    DictSumOver(f, c, ks);
    SumsAtMostBoth(ks, d, e, f, c);
  }

  function TimesOf(adding: seq<Adding>): seq<int>
  {
    if |adding| == 0 then [] else TimesOf(adding[..|adding| - 1]) + [adding[|adding| - 1].time]
  }

  lemma {:induction false} TimesAreListed(adding: seq<Adding>)
    ensures |TimesOf(adding)| == |adding| && forall k :: 0 <= k < |adding| ==> TimesOf(adding)[k] == adding[k].time
  {
    if |adding| > 0 {
      TimesAreListed(adding[..|adding| - 1]);
    }
  }

  lemma {:induction false} TableValues(adding: seq<Adding>, t: int)
    requires UniqueTimes(adding)
    ensures GetOr(AddsOf(adding), t, 0) == Sum(adding, IsuAt(t))
    ensures forall a :: a in adding ==> a.time in AddsOf(adding) && AddsOf(adding)[a.time] == a.isu
  {
    if |adding| > 0 {
      var n := |adding| - 1;
      assert UniqueTimes(adding[..n]);
      TableValues(adding[..n], t);
      if adding[n].time == t {
        forall k | 0 <= k < n ensures IsuAt(t)(adding[..n][k]) == 0 {
        }
        Zeros(adding[..n], IsuAt(t));
      }
      forall a | a in adding ensures a.time in AddsOf(adding) && AddsOf(adding)[a.time] == a.isu {
        var k :| 0 <= k < |adding| && adding[k] == a;
        if k < n {
          assert a in adding[..n] && adding[k].time != adding[n].time;
        }
      }
    }
  }

  lemma {:induction false} SumByTimes(adding: seq<Adding>, m: map<int, int>, c: int)
    requires forall k :: 0 <= k < |adding| ==> adding[k].time in m && m[adding[k].time] == adding[k].isu
    ensures Sum(TimesOf(adding), ValueBy(m, c)) == Sum(adding, IsuBy(c))
  {
    if |adding| > 0 {
      var n := |adding| - 1;
      SumByTimes(adding[..n], m, c);
      SumPush(TimesOf(adding[..n]), adding[n].time, ValueBy(m, c));
    }
  }

  /** The adding table as a dictionary has the table's total. */
  lemma TableTotal(adding: seq<Adding>, c: int)
    requires UniqueTimes(adding)
    ensures DictSum(AddsOf(adding), c) == Sum(adding, IsuBy(c))
  {
    var m, ks := AddsOf(adding), TimesOf(adding);
    TableValues(adding, 0);
    forall k | 0 <= k < |adding| ensures adding[k].time in m && m[adding[k].time] == adding[k].isu {
      assert adding[k] in adding;
    }
    SumByTimes(adding, m, c);
    TimesAreListed(adding);
    forall t ensures t in ks <==> t in m {
      AddsOfHolds(adding, t);
      if t in m {
        var k :| 0 <= k < |adding| && adding[k].time == t;
        assert ks[k] == t;
      }
    }
    DictSumIs(m, c, ks);
  }

  lemma LoggedIsuBrackets(d: Dicts, adding: seq<Adding>, c: int)
    requires UniqueTimes(adding) && AddsExplained(d, adding, c)
    ensures DictSum(d.adds, c) <= Sum(adding, IsuBy(c)) <= DictSum(d.adds, c) + DictSum(d.addsOpen, c)
  {
    forall t ensures GetOr(AddsOf(adding), t, 0) == Sum(adding, IsuAt(t)) {
      TableValues(adding, t);
    }
    DictSumAtMost(d.adds, AddsOf(adding), c);
    DictSumAtMostBoth(AddsOf(adding), d.adds, d.addsOpen, c);
    TableTotal(adding, c);
  }

  // ---- Built copies -------------------------------------------------------------------------------------------------

  lemma {:induction false} CopiesAtMost(item: int, n: nat, f: (int, nat) -> int, g: (int, nat) -> int, v: Buying -> int)
    requires forall k: nat :: 1 <= k <= n ==> v(Buying(item, k, g(item, k))) <= v(Buying(item, k, f(item, k)))
    ensures Sum(Copies(item, 0, n, g), v) <= Sum(Copies(item, 0, n, f), v)
  {
    if n > 0 {
      CopiesAtMost(item, n - 1, f, g, v);
      SumPush(Copies(item, 0, n - 1, f), Buying(item, n, f(item, n)), v);
      SumPush(Copies(item, 0, n - 1, g), Buying(item, n, g(item, n)), v);
    }
  }

  /** Row by row, an amount is no more under the times g than under the times f. */
  ghost predicate NoMore(items: seq<ItemStatus>, f: (int, nat) -> int, g: (int, nat) -> int, v: Buying -> int)
  {
    forall x: ItemStatus, k: nat :: x in items && 1 <= k <= x.countBuilt ==>
      v(Buying(x.itemId, k, g(x.itemId, k))) <= v(Buying(x.itemId, k, f(x.itemId, k)))
  }

  lemma BuiltAtMost(items: seq<ItemStatus>, f: (int, nat) -> int, g: (int, nat) -> int, v: Buying -> int)
    requires NoMore(items, f, g, v)
    ensures Sum(Flatten(items, BuiltPart(g)), v) <= Sum(Flatten(items, BuiltPart(f)), v)
  {
    SumFlatten(items, BuiltPart(f), v);
    SumFlatten(items, BuiltPart(g), v);
    forall k | 0 <= k < |items| ensures PartTotal(BuiltPart(g), v)(items[k]) <= PartTotal(BuiltPart(f), v)(items[k]) {
      assert items[k] in items;
      CopiesAtMost(items[k].itemId, items[k].countBuilt, f, g, v);
    }
    SumAtMost(items, PartTotal(BuiltPart(g), v), PartTotal(BuiltPart(f), v));
  }

  ghost predicate NoLater(items: seq<ItemStatus>, f: (int, nat) -> int, g: (int, nat) -> int)
  {
    forall x: ItemStatus, k: nat :: x in items && 1 <= k <= x.countBuilt ==> f(x.itemId, k) <= g(x.itemId, k)
  }

  /** Built copies read with other times: earlier times have produced more by c. */
  lemma EarlierProducesMore(ms: Masters, c: int, items: seq<ItemStatus>, f: (int, nat) -> int, g: (int, nat) -> int)
    requires NoLater(items, f, g)
    ensures Sum(Flatten(items, BuiltPart(g)), Produced(ms, c)) <= Sum(Flatten(items, BuiltPart(f)), Produced(ms, c))
  {
    forall x: ItemStatus, k: nat | x in items && 1 <= k <= x.countBuilt
      ensures Produced(ms, c)(Buying(x.itemId, k, g(x.itemId, k)))
        <= Produced(ms, c)(Buying(x.itemId, k, f(x.itemId, k)))
    {
    }
    BuiltAtMost(items, f, g, Produced(ms, c));
  }

  /** Prices and powers do not depend on the times read. */
  lemma TimesDoNotMatter(ms: Masters, items: seq<ItemStatus>, f: (int, nat) -> int, g: (int, nat) -> int)
    ensures Sum(Flatten(items, BuiltPart(f)), Cost(ms)) == Sum(Flatten(items, BuiltPart(g)), Cost(ms))
    ensures Sum(Flatten(items, BuiltPart(f)), PowerRow(ms)) == Sum(Flatten(items, BuiltPart(g)), PowerRow(ms))
    ensures PowerTable(ms, Flatten(items, BuiltPart(f))) == PowerTable(ms, Flatten(items, BuiltPart(g)))
  {
    BuiltAtMost(items, f, g, Cost(ms));
    BuiltAtMost(items, g, f, Cost(ms));
    BuiltAtMost(items, f, g, PowerRow(ms));
    BuiltAtMost(items, g, f, PowerRow(ms));
    forall i
      ensures Sum(Flatten(items, BuiltPart(f)), ItemPowerRow(ms, i))
        == Sum(Flatten(items, BuiltPart(g)), ItemPowerRow(ms, i))
    {
      BuiltAtMost(items, f, g, ItemPowerRow(ms, i));
      BuiltAtMost(items, g, f, ItemPowerRow(ms, i));
    }
    SameTable(PowerTable(ms, Flatten(items, BuiltPart(f))), PowerTable(ms, Flatten(items, BuiltPart(g))));
  }
}
