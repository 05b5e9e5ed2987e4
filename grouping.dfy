/** The group-by-and-aggregate step shared by the three reductions: sales are
    grouped by a key and each group is reduced to its sums of revenue, profit
    and quantity, its number of sales and its latest sale date. Groups come out
    in ascending key order, as a sorting group-by gives them. */
module Grouping {
  import opened Sales

  /** A group key: (year, month) for the monthly rollup, (id, 0) for customers and products. */
  datatype Key = Key(major: int, minor: int)

  predicate KeyLess(a: Key, b: Key) {
    a.major < b.major || (a.major == b.major && a.minor < b.minor)
  }

  type Positive = n: int | n >= 1 witness 1

  /** The aggregate of one group. */
  datatype Acc = Acc(key: Key, revenue: int, profit: int, quantity: int, count: Positive, latest: int)

  function Start(k: Key, s: Sale): Acc {
    Acc(k, s.revenue, s.profit, s.quantity, 1, s.date)
  }

  function Add(a: Acc, s: Sale): Acc {
    a.(revenue := a.revenue + s.revenue, profit := a.profit + s.profit,
       quantity := a.quantity + s.quantity, count := a.count + 1,
       latest := if s.date > a.latest then s.date else a.latest)
  }

  /** The sales whose key is k, in ledger order. */
  function Filter(sales: seq<Sale>, keyOf: Sale -> Key, k: Key): seq<Sale> {
    if sales == [] then []
    else
      var rest := Filter(sales[..|sales| - 1], keyOf, k);
      if keyOf(sales[|sales| - 1]) == k then rest + [sales[|sales| - 1]] else rest
  }

  /** Reference reduction of one group, sale by sale. */
  function Aggregate(k: Key, group: seq<Sale>): Acc
    requires group != []
  {
    if |group| == 1 then Start(k, group[0])
    else Add(Aggregate(k, group[..|group| - 1]), group[|group| - 1])
  }

  /** Adds sale s, whose key is k, to the aggregates. */
  function Insert(accs: seq<Acc>, k: Key, s: Sale): seq<Acc> {
    if accs == [] then [Start(k, s)]
    else if accs[0].key == k then [Add(accs[0], s)] + accs[1..]
    else if KeyLess(k, accs[0].key) then [Start(k, s)] + accs
    else [accs[0]] + Insert(accs[1..], k, s)
  }

  /** The grouped aggregates of a ledger, folding in one sale at a time. */
  function Accumulate(sales: seq<Sale>, keyOf: Sale -> Key): seq<Acc> {
    if sales == [] then []
    else Insert(Accumulate(sales[..|sales| - 1], keyOf), keyOf(sales[|sales| - 1]), sales[|sales| - 1])
  }

  ghost predicate StrictlyAscending(accs: seq<Acc>) {
    forall i, j :: 0 <= i < j < |accs| ==> KeyLess(accs[i].key, accs[j].key)
  }

  function KeysOf(accs: seq<Acc>): set<Key> {
    set a | a in accs :: a.key
  }

  function SaleKeys(sales: seq<Sale>, keyOf: Sale -> Key): set<Key> {
    set s | s in sales :: keyOf(s)
  }

  /** What a correct group-by of `sales` is: one aggregate per distinct key,
      in ascending key order, each the reduction of exactly the sales with that key. */
  ghost predicate GroupedBy(accs: seq<Acc>, sales: seq<Sale>, keyOf: Sale -> Key) {
    && StrictlyAscending(accs)
    && KeysOf(accs) == SaleKeys(sales, keyOf)
    && forall a :: a in accs ==>
         Filter(sales, keyOf, a.key) != [] && a == Aggregate(a.key, Filter(sales, keyOf, a.key))
  }

  lemma {:induction false} InsertKeys(accs: seq<Acc>, k: Key, s: Sale)
    ensures KeysOf(Insert(accs, k, s)) == KeysOf(accs) + {k}
  {
    if accs != [] {
      assert accs == [accs[0]] + accs[1..];
      assert KeysOf(accs) == {accs[0].key} + KeysOf(accs[1..]);
      if accs[0].key == k {
        assert KeysOf(Insert(accs, k, s)) == {k} + KeysOf(accs[1..]);
      } else if !KeyLess(k, accs[0].key) {
        InsertKeys(accs[1..], k, s);
        assert KeysOf(Insert(accs, k, s)) == {accs[0].key} + KeysOf(Insert(accs[1..], k, s));
      }
    }
  }

  lemma {:induction false} InsertSorted(accs: seq<Acc>, k: Key, s: Sale)
    requires StrictlyAscending(accs)
    ensures StrictlyAscending(Insert(accs, k, s))
  {
    var r := Insert(accs, k, s);
    if accs == [] {
    } else if accs[0].key == k {
    } else if KeyLess(k, accs[0].key) {
      forall i, j | 0 <= i < j < |r| ensures KeyLess(r[i].key, r[j].key) {
      }
    } else {
      var tail := accs[1..];
      InsertSorted(tail, k, s);
      InsertKeys(tail, k, s);
      var rt := Insert(tail, k, s);
      assert r == [accs[0]] + rt;
      forall j | 0 < j < |r| ensures KeyLess(r[0].key, r[j].key) {
        assert r[j].key in KeysOf(rt);
        if r[j].key != k {
          assert r[j].key in KeysOf(tail);
          var t :| 0 <= t < |tail| && tail[t].key == r[j].key;
        }
      }
    }
  }

  lemma {:induction false} InsertOthers(accs: seq<Acc>, k: Key, s: Sale)
    ensures forall a :: a in Insert(accs, k, s) && a.key != k ==> a in accs
    ensures forall a :: a in accs && a.key != k ==> a in Insert(accs, k, s)
  {
    if accs != [] && accs[0].key != k && !KeyLess(k, accs[0].key) {
      InsertOthers(accs[1..], k, s);
      assert accs == [accs[0]] + accs[1..];
      assert Insert(accs, k, s) == [accs[0]] + Insert(accs[1..], k, s);
    } else if accs != [] {
      assert accs == [accs[0]] + accs[1..];
    }
  }

  lemma {:induction false} InsertSame(accs: seq<Acc>, k: Key, s: Sale)
    requires StrictlyAscending(accs)
    ensures forall a :: a in Insert(accs, k, s) && a.key == k ==>
              if k in KeysOf(accs) then exists b :: b in accs && b.key == k && a == Add(b, s)
              else a == Start(k, s)
  {
    var r := Insert(accs, k, s);
    if accs == [] {
    } else if accs[0].key == k {
      forall i | 1 <= i < |r| ensures r[i].key != k {
      }
    } else if KeyLess(k, accs[0].key) {
      forall a | a in accs ensures a.key != k {
        var i :| 0 <= i < |accs| && accs[i] == a;
        assert i == 0 || KeyLess(accs[0].key, accs[i].key);
      }
      assert r == [Start(k, s)] + accs;
    } else {
      var tail := accs[1..];
      InsertSame(tail, k, s);
      var rt := Insert(tail, k, s);
      assert r == [accs[0]] + rt;
      assert accs == [accs[0]] + tail;
      assert KeysOf(accs) == {accs[0].key} + KeysOf(tail);
      forall a | a in r && a.key == k
        ensures if k in KeysOf(accs) then exists b :: b in accs && b.key == k && a == Add(b, s)
                else a == Start(k, s)
      {
        assert a in rt;
        if k in KeysOf(tail) {
          var b :| b in tail && b.key == k && a == Add(b, s);
          assert b in accs;
        }
      }
    }
  }

  lemma FilterStep(sales: seq<Sale>, keyOf: Sale -> Key, s: Sale, k: Key)
    ensures Filter(sales + [s], keyOf, k) ==
              if keyOf(s) == k then Filter(sales, keyOf, k) + [s] else Filter(sales, keyOf, k)
  {
    assert (sales + [s])[..|sales|] == sales;
  }

  lemma {:induction false} FilterEmpty(sales: seq<Sale>, keyOf: Sale -> Key, k: Key)
    requires k !in SaleKeys(sales, keyOf)
    ensures Filter(sales, keyOf, k) == []
  {
    if sales != [] {
      var init := sales[..|sales| - 1];
      assert SaleKeys(init, keyOf) <= SaleKeys(sales, keyOf);
      FilterEmpty(init, keyOf, k);
      assert sales[|sales| - 1] in sales;
    }
  }

  /** A sale is in the group of its own key. */
  lemma {:induction false} FilterHas(sales: seq<Sale>, keyOf: Sale -> Key, s: Sale)
    requires s in sales
    ensures s in Filter(sales, keyOf, keyOf(s))
  {
    var n := |sales| - 1;
    if sales[n] != s {
      assert s in sales[..n];
      FilterHas(sales[..n], keyOf, s);
    }
  }

  lemma AggregateStep(k: Key, group: seq<Sale>, s: Sale)
    requires group != []
    ensures Aggregate(k, group + [s]) == Add(Aggregate(k, group), s)
  {
    assert (group + [s])[..|group|] == group;
  }

  /** The fold computes a correct group-by. */
  lemma {:induction false} AccumulateGroups(sales: seq<Sale>, keyOf: Sale -> Key)
    ensures GroupedBy(Accumulate(sales, keyOf), sales, keyOf)
  {
    if sales != [] {
      var init := sales[..|sales| - 1];
      var s := sales[|sales| - 1];
      var k := keyOf(s);
      assert sales == init + [s];
      AccumulateGroups(init, keyOf);
      var accs := Accumulate(init, keyOf);
      var r := Accumulate(sales, keyOf);
      InsertSorted(accs, k, s);
      InsertKeys(accs, k, s);
      InsertOthers(accs, k, s);
      InsertSame(accs, k, s);
      assert SaleKeys(sales, keyOf) == SaleKeys(init, keyOf) + {k};
      forall a | a in r
        ensures Filter(sales, keyOf, a.key) != [] && a == Aggregate(a.key, Filter(sales, keyOf, a.key))
      {
        FilterStep(init, keyOf, s, a.key);
        if a.key == k {
          if k in KeysOf(accs) {
            var b :| b in accs && b.key == k && a == Add(b, s);
            AggregateStep(k, Filter(init, keyOf, k), s);
          } else {
            FilterEmpty(init, keyOf, k);
            assert Filter(sales, keyOf, k) == [s];
          }
        }
      }
    }
  }

  /** The measures summed per group. */
  datatype Measure = Revenue | Profit | Quantity | Count

  function SaleMeasure(s: Sale, m: Measure): int {
    match m
    case Revenue => s.revenue
    case Profit => s.profit
    case Quantity => s.quantity
    case Count => 1
  }

  function AccMeasure(a: Acc, m: Measure): int {
    match m
    case Revenue => a.revenue
    case Profit => a.profit
    case Quantity => a.quantity
    case Count => a.count
  }

  function SaleTotal(sales: seq<Sale>, m: Measure): int {
    if sales == [] then 0 else SaleTotal(sales[..|sales| - 1], m) + SaleMeasure(sales[|sales| - 1], m)
  }

  function AccTotal(accs: seq<Acc>, m: Measure): int {
    if accs == [] then 0 else AccMeasure(accs[0], m) + AccTotal(accs[1..], m)
  }

  lemma {:induction false} InsertTotal(accs: seq<Acc>, k: Key, s: Sale, m: Measure)
    ensures AccTotal(Insert(accs, k, s), m) == AccTotal(accs, m) + SaleMeasure(s, m)
  {
    if accs != [] && accs[0].key != k && !KeyLess(k, accs[0].key) {
      InsertTotal(accs[1..], k, s, m);
      assert Insert(accs, k, s)[1..] == Insert(accs[1..], k, s);
    } else if accs != [] && accs[0].key == k {
      assert Insert(accs, k, s)[1..] == accs[1..];
    } else if accs != [] {
      assert Insert(accs, k, s)[1..] == accs;
    }
  }

  /** Conservation: summing a measure over the groups gives its sum over the ledger. */
  lemma {:induction false} AccumulateConserves(sales: seq<Sale>, keyOf: Sale -> Key, m: Measure)
    ensures AccTotal(Accumulate(sales, keyOf), m) == SaleTotal(sales, m)
  {
    if sales != [] {
      var init := sales[..|sales| - 1];
      AccumulateConserves(init, keyOf, m);
      InsertTotal(Accumulate(init, keyOf), keyOf(sales[|sales| - 1]), sales[|sales| - 1], m);
    }
  }

  /** The reference reduction of a group sums its measures and keeps its latest date. */
  lemma {:induction false} AggregateMeasures(k: Key, group: seq<Sale>)
    requires group != []
    ensures Aggregate(k, group).revenue == SaleTotal(group, Revenue)
    ensures Aggregate(k, group).profit == SaleTotal(group, Profit)
    ensures Aggregate(k, group).quantity == SaleTotal(group, Quantity)
    ensures Aggregate(k, group).key == k
    ensures Aggregate(k, group).count == |group|
    ensures forall s :: s in group ==> s.date <= Aggregate(k, group).latest
    ensures exists s :: s in group && s.date == Aggregate(k, group).latest
  {
    if |group| > 1 {
      var init := group[..|group| - 1];
      AggregateMeasures(k, init);
      assert group == init + [group[|group| - 1]];
      var w :| w in init && w.date == Aggregate(k, init).latest;
      assert w in group;
    } else {
      assert group == [group[0]];
      assert group[..0] == [];
    }
  }

  lemma SaleCountIsLength(sales: seq<Sale>)
    ensures SaleTotal(sales, Count) == |sales|
  {
  }

  /** Insert, as the method below computes it: past the smaller keys, then
      either into the group with the same key or as a new group. */
  lemma {:induction false} InsertAt(accs: seq<Acc>, k: Key, s: Sale, j: nat)
    requires j <= |accs|
    requires forall i :: 0 <= i < j ==> KeyLess(accs[i].key, k)
    requires j < |accs| ==> !KeyLess(accs[j].key, k)
    ensures Insert(accs, k, s) ==
              if j < |accs| && accs[j].key == k then accs[..j] + [Add(accs[j], s)] + accs[j + 1..]
              else accs[..j] + [Start(k, s)] + accs[j..]
  {
    if j > 0 {
      InsertAt(accs[1..], k, s, j - 1);
      assert accs[..j] == [accs[0]] + accs[1..][..j - 1];
    }
  }

  /** The group-by loop: one pass over the ledger, each sale located by a scan. */
  method GroupSales(sales: seq<Sale>, keyOf: Sale -> Key) returns (accs: seq<Acc>)
    ensures accs == Accumulate(sales, keyOf)
  {
    accs := [];
    for n := 0 to |sales|
      invariant accs == Accumulate(sales[..n], keyOf)
    {
      var s := sales[n];
      var k := keyOf(s);
      var j := 0;
      while j < |accs| && KeyLess(accs[j].key, k)
        invariant 0 <= j <= |accs|
        invariant forall i :: 0 <= i < j ==> KeyLess(accs[i].key, k)
      {
        j := j + 1;
      }
      InsertAt(accs, k, s, j);
      if j < |accs| && accs[j].key == k {
        accs := accs[..j] + [Add(accs[j], s)] + accs[j + 1..];
      } else {
        accs := accs[..j] + [Start(k, s)] + accs[j..];
      }
      assert sales[..n + 1][..n] == sales[..n];
    }
    assert sales[..|sales|] == sales;
  }
}
