/** ABC product classification (abc_produtos): revenue and quantity per
    product, ranked by revenue from largest to smallest, the running
    cumulative revenue and its share of the total, and a class by threshold. */
module Abc {
  import opened Sales
  import opened Grouping

  function ProductKey(s: Sale): Key {
    Key(s.product, 0)
  }

  /** ID_Produto, Receita_Liquida, Quantidade. */
  datatype ProductTotal = ProductTotal(product: int, revenue: int, quantity: int)

  function ProductTotals(accs: seq<Acc>): seq<ProductTotal> {
    seq(|accs|, j requires 0 <= j < |accs| => ProductTotal(accs[j].key.major, accs[j].revenue, accs[j].quantity))
  }

  /** Revenue and quantity of every product sold, in ascending product order. */
  function SalesByProduct(sales: seq<Sale>): seq<ProductTotal> {
    ProductTotals(Accumulate(sales, ProductKey))
  }

  function ProductsOf(xs: seq<ProductTotal>): set<int> {
    set x | x in xs :: x.product
  }

  function SaleProducts(sales: seq<Sale>): set<int> {
    set s | s in sales :: s.product
  }

  ghost predicate TotalsProduct(sales: seq<Sale>, x: ProductTotal) {
    var group := Filter(sales, ProductKey, Key(x.product, 0));
    && group != []
    && x.revenue == SaleTotal(group, Revenue)
    && x.quantity == SaleTotal(group, Quantity)
  }

  lemma ProductTotalOf(sales: seq<Sale>, a: Acc)
    requires a.key.minor == 0
    requires Filter(sales, ProductKey, a.key) != []
    requires a == Aggregate(a.key, Filter(sales, ProductKey, a.key))
    ensures TotalsProduct(sales, ProductTotal(a.key.major, a.revenue, a.quantity))
  {
    AggregateMeasures(a.key, Filter(sales, ProductKey, a.key));
  }

  /** One entry per product sold, each with the summed revenue and quantity of that product's sales. */
  lemma SalesByProductRows(sales: seq<Sale>)
    ensures forall i, j :: 0 <= i < j < |SalesByProduct(sales)| ==>
              SalesByProduct(sales)[i].product < SalesByProduct(sales)[j].product
    ensures ProductsOf(SalesByProduct(sales)) == SaleProducts(sales)
    ensures forall x :: x in SalesByProduct(sales) ==> TotalsProduct(sales, x)
  {
    var accs := Accumulate(sales, ProductKey);
    var xs := SalesByProduct(sales);
    AccumulateGroups(sales, ProductKey);
    forall j | 0 <= j < |accs| ensures accs[j].key.minor == 0 && accs[j].key.major in SaleProducts(sales) {
      assert accs[j] in accs;
      assert accs[j].key in KeysOf(accs);
      var s :| s in sales && ProductKey(s) == accs[j].key;
    }
    forall i, j | 0 <= i < j < |xs| ensures xs[i].product < xs[j].product {
    }
    forall x | x in xs ensures TotalsProduct(sales, x) {
      var j :| 0 <= j < |xs| && xs[j] == x;
      assert accs[j] in accs;
      ProductTotalOf(sales, accs[j]);
    }
    forall p | p in SaleProducts(sales) ensures p in ProductsOf(xs) {
      var s :| s in sales && s.product == p;
      assert ProductKey(s) in SaleKeys(sales, ProductKey);
      var a :| a in accs && a.key == ProductKey(s);
      var j :| 0 <= j < |accs| && accs[j] == a;
      assert xs[j] in xs;
    }
  }

  // ---------------------------------------------------------------------------
  // Ranking and running totals

  ghost predicate RevenueDescending(xs: seq<ProductTotal>) {
    forall i, j :: 0 <= i < j < |xs| ==> xs[i].revenue >= xs[j].revenue
  }

  /** Putting x at position j, after every product with at least its revenue
      and before the first with less, keeps the order and adds x to the contents. */
  lemma InsertDescending(ys: seq<ProductTotal>, j: int, x: ProductTotal)
    requires RevenueDescending(ys) && 0 <= j <= |ys|
    requires forall k :: 0 <= k < j ==> ys[k].revenue >= x.revenue
    requires j < |ys| ==> ys[j].revenue < x.revenue
    ensures RevenueDescending(ys[..j] + [x] + ys[j..])
    ensures multiset(ys[..j] + [x] + ys[j..]) == multiset(ys) + multiset{x}
  {
    assert ys == ys[..j] + ys[j..];
    var zs := ys[..j] + [x] + ys[j..];
    forall a, b | 0 <= a < b < |zs| ensures zs[a].revenue >= zs[b].revenue {
      if a < j && b > j {
        assert zs[b] == ys[b - 1];
      } else if a == j {
        assert zs[b] == ys[b - 1];
        assert ys[j].revenue >= ys[b - 1].revenue || b - 1 == j;
      } else if a > j {
        assert zs[a] == ys[a - 1] && zs[b] == ys[b - 1];
      }
    }
  }

  /** The first position whose revenue is below x's, scanning from the front. */
  method InsertionPoint(ys: seq<ProductTotal>, x: ProductTotal) returns (j: int)
    ensures 0 <= j <= |ys|
    ensures forall k :: 0 <= k < j ==> ys[k].revenue >= x.revenue
    ensures j < |ys| ==> ys[j].revenue < x.revenue
  {
    j := 0;
    while j < |ys| && ys[j].revenue >= x.revenue
      invariant 0 <= j <= |ys|
      invariant forall k :: 0 <= k < j ==> ys[k].revenue >= x.revenue
    {
      j := j + 1;
    }
  }

  /** Sorts by revenue, largest first. Equal revenues may come in any order. */
  method SortByRevenueDescending(xs: seq<ProductTotal>) returns (ys: seq<ProductTotal>)
    ensures RevenueDescending(ys)
    ensures multiset(ys) == multiset(xs)
  {
    ys := [];
    for i := 0 to |xs|
      invariant RevenueDescending(ys)
      invariant multiset(ys) == multiset(xs[..i])
    {
      var j := InsertionPoint(ys, xs[i]);
      InsertDescending(ys, j, xs[i]);
      assert xs[..i + 1] == xs[..i] + [xs[i]];
      ys := ys[..j] + [xs[i]] + ys[j..];
    }
    assert xs[..|xs|] == xs;
  }

  /** Summed revenue of a sequence of products. */
  function RevenueTotal(xs: seq<ProductTotal>): int {
    if xs == [] then 0 else RevenueTotal(xs[..|xs| - 1]) + xs[|xs| - 1].revenue
  }

  /** The cumulative sum of revenue along the ranking (Receita_Acumulada). */
  method RunningRevenue(xs: seq<ProductTotal>) returns (cum: seq<int>)
    ensures |cum| == |xs|
    ensures forall i :: 0 <= i < |xs| ==> cum[i] == RevenueTotal(xs[..i + 1])
  {
    cum := [];
    var running := 0;
    for i := 0 to |xs|
      invariant |cum| == i
      invariant running == RevenueTotal(xs[..i])
      invariant forall k :: 0 <= k < i ==> cum[k] == RevenueTotal(xs[..k + 1])
    {
      assert xs[..i + 1][..i] == xs[..i];
      running := running + xs[i].revenue;
      cum := cum + [running];
    }
  }

  lemma {:induction false} RevenueTotalRemove(xs: seq<ProductTotal>, k: int)
    requires 0 <= k < |xs|
    ensures RevenueTotal(xs) == RevenueTotal(xs[..k] + xs[k + 1..]) + xs[k].revenue
    decreases |xs|
  {
    var n := |xs| - 1;
    if k < n {
      var init := xs[..n];
      RevenueTotalRemove(init, k);
      assert init[..k] + init[k + 1..] == (xs[..k] + xs[k + 1..])[..n - 1];
      assert (xs[..k] + xs[k + 1..])[n - 1] == xs[n];
    } else {
      assert xs[..k] + xs[k + 1..] == xs[..n];
    }
  }

  /** Reordering products does not change their revenue total. */
  lemma {:induction false} RevenueTotalPermutation(xs: seq<ProductTotal>, ys: seq<ProductTotal>)
    requires multiset(xs) == multiset(ys)
    ensures RevenueTotal(xs) == RevenueTotal(ys)
    decreases |xs|
  {
    if xs != [] {
      var n := |xs| - 1;
      var x := xs[n];
      assert xs == xs[..n] + [x];
      assert x in multiset(ys);
      var k :| 0 <= k < |ys| && ys[k] == x;
      assert ys == ys[..k] + [x] + ys[k + 1..];
      assert multiset(xs) == multiset(xs[..n]) + multiset{x};
      assert multiset(ys) == multiset(ys[..k] + ys[k + 1..]) + multiset{x} by {
        assert ys[..k] + [x] + ys[k + 1..] == (ys[..k] + ys[k + 1..])[..k] + [x] + (ys[..k] + ys[k + 1..])[k..];
      }
      assert multiset(xs[..n]) == multiset(xs) - multiset{x};
      assert multiset(ys[..k] + ys[k + 1..]) == multiset(ys) - multiset{x};
      RevenueTotalPermutation(xs[..n], ys[..k] + ys[k + 1..]);
      RevenueTotalRemove(ys, k);
    } else {
    }
  }

  lemma {:induction false} RevenueTotalOfTotals(accs: seq<Acc>)
    ensures RevenueTotal(ProductTotals(accs)) == AccTotal(accs, Revenue)
    decreases |accs|
  {
    if accs != [] {
      var tail := accs[1..];
      RevenueTotalOfTotals(tail);
      var xs := ProductTotals(accs);
      assert ProductTotals(tail) == xs[1..];
      RevenueTotalRemove(xs, 0);
      assert xs[..0] + xs[1..] == xs[1..];
    }
  }

  /** Summed over the products, revenue is the ledger's total revenue. */
  lemma SalesByProductRevenue(sales: seq<Sale>)
    ensures RevenueTotal(SalesByProduct(sales)) == SaleTotal(sales, Revenue)
  {
    RevenueTotalOfTotals(Accumulate(sales, ProductKey));
    AccumulateConserves(sales, ProductKey, Revenue);
  }

  // ---------------------------------------------------------------------------
  // Classification

  datatype AbcClass = A | B | C

  /** classificar_abc: share <= 80 gives A, <= 95 gives B, anything else C.
      Every comparison with not-a-number is false, so it falls through to C. */
  function ClassifyAbc(pct: Quotient): AbcClass {
    match pct
    case Finite(p) => if p <= 80.0 then A else if p <= 95.0 then B else C
    case MinusInfinity => A
    case PlusInfinity => C
    case NotANumber => C
  }

  function ClassRank(c: AbcClass): int {
    match c
    case A => 0
    case B => 1
    case C => 2
  }

  /** The three bands, both directions. */
  lemma ClassifyBands(p: real)
    ensures ClassifyAbc(Finite(p)) == A <==> p <= 80.0
    ensures ClassifyAbc(Finite(p)) == B <==> 80.0 < p <= 95.0
    ensures ClassifyAbc(Finite(p)) == C <==> 95.0 < p
  {
  }

  lemma ThresholdExamples()
    ensures ClassifyAbc(Finite(79.9)) == A
    ensures ClassifyAbc(Finite(80.0)) == A
    ensures ClassifyAbc(Finite(80.1)) == B
    ensures ClassifyAbc(Finite(95.0)) == B
    ensures ClassifyAbc(Finite(95.1)) == C
  {
  }

  /** A larger share never gets an earlier class. */
  lemma ClassifyMonotone(p: real, q: real)
    requires p <= q
    ensures ClassRank(ClassifyAbc(Finite(p))) <= ClassRank(ClassifyAbc(Finite(q)))
  {
  }

  lemma ShareOrder(c: int, d: int, total: int)
    requires total > 0 && c <= d
    ensures Percent(c, total).value <= Percent(d, total).value
  {
    var t := total as real;
    assert (c as real) / t <= (d as real) / t by {
      assert (d as real) / t - (c as real) / t == ((d - c) as real) / t;
    }
  }

  /** For a positive total the class follows from integer comparisons:
      A when 100 * cumulative <= 80 * total, B when <= 95 * total, otherwise C. */
  lemma ClassOfShare(cumulative: int, total: int)
    requires total > 0
    ensures ClassifyAbc(Percent(cumulative, total)) ==
            if 100 * cumulative <= 80 * total then A
            else if 100 * cumulative <= 95 * total then B
            else C
  {
    var p := Percent(cumulative, total).value;
    assert p * (total as real) == (cumulative as real) * 100.0;
    assert p <= 80.0 <==> 100 * cumulative <= 80 * total by {
      if p <= 80.0 {
        assert p * (total as real) <= 80.0 * (total as real);
      } else {
        assert p * (total as real) > 80.0 * (total as real);
      }
    }
    assert p <= 95.0 <==> 100 * cumulative <= 95 * total by {
      if p <= 95.0 {
        assert p * (total as real) <= 95.0 * (total as real);
      } else {
        assert p * (total as real) > 95.0 * (total as real);
      }
    }
  }

  // ---------------------------------------------------------------------------
  // The ABC table

  /** ID_Produto, Receita_Liquida, Quantidade, Receita_Acumulada, Pct_Acumulado, Classe_ABC. */
  datatype AbcRow = AbcRow(product: int, revenue: int, quantity: int, cumulative: int,
                           share: Quotient, abcClass: AbcClass)

  function AbcRowOf(x: ProductTotal, cumulative: int, total: int): AbcRow {
    var share := Percent(cumulative, total);
    AbcRow(x.product, x.revenue, x.quantity, cumulative, share, ClassifyAbc(share))
  }

  /** The rows for the first n products of a ranking: row i carries the
      revenue of products 0..i and its share of the given total. */
  function AbcPrefix(ranked: seq<ProductTotal>, n: int, total: int): (rows: seq<AbcRow>)
    requires 0 <= n <= |ranked|
    ensures |rows| == n
    ensures forall i :: 0 <= i < n ==> rows[i] == AbcRowOf(ranked[i], RevenueTotal(ranked[..i + 1]), total)
    decreases n
  {
    if n == 0 then [] else AbcPrefix(ranked, n - 1, total) + [AbcRowOf(ranked[n - 1], RevenueTotal(ranked[..n]), total)]
  }

  /** The table for a given ranking of the products. */
  function AbcTable(ranked: seq<ProductTotal>): (rows: seq<AbcRow>)
    ensures |rows| == |ranked|
    ensures forall i :: 0 <= i < |ranked| ==>
              rows[i] == AbcRowOf(ranked[i], RevenueTotal(ranked[..i + 1]), RevenueTotal(ranked))
  {
    AbcPrefix(ranked, |ranked|, RevenueTotal(ranked))
  }

  /** The ranking a table was built from. */
  function Ranking(rows: seq<AbcRow>): seq<ProductTotal> {
    seq(|rows|, i requires 0 <= i < |rows| => ProductTotal(rows[i].product, rows[i].revenue, rows[i].quantity))
  }

  lemma RankingOfTable(ranked: seq<ProductTotal>)
    ensures Ranking(AbcTable(ranked)) == ranked
  {
  }

  /** Closure: the last cumulative revenue is the total, and its share is 100. */
  lemma AbcClosure(ranked: seq<ProductTotal>)
    requires ranked != []
    ensures var last := AbcTable(ranked)[|ranked| - 1];
            && last.cumulative == RevenueTotal(ranked)
            && (RevenueTotal(ranked) > 0 ==> last.share == Finite(100.0))
            && (RevenueTotal(ranked) > 0 ==> last.abcClass == C)
  {
    assert ranked[..|ranked|] == ranked;
    var t := RevenueTotal(ranked);
    if t > 0 {
      ShareOfWhole(t);
    }
  }

  lemma ShareOfWhole(total: int)
    requires total > 0
    ensures Percent(total, total) == Finite(100.0)
  {
    assert (total as real) / (total as real) == 1.0;
  }

  lemma {:induction false} PrefixRevenueGrows(xs: seq<ProductTotal>, i: int, j: int)
    requires 0 <= i <= j <= |xs|
    requires forall k :: 0 <= k < |xs| ==> xs[k].revenue >= 0
    ensures RevenueTotal(xs[..i]) <= RevenueTotal(xs[..j])
    decreases j - i
  {
    if i < j {
      PrefixRevenueGrows(xs, i, j - 1);
      assert xs[..j][..j - 1] == xs[..j - 1];
    }
  }

  /** With non-negative revenues and a positive total, shares never decrease
      along the ranking and classes never go back from C to B or from B to A. */
  lemma {:induction false} AbcSharesGrow(ranked: seq<ProductTotal>, i: int, j: int)
    requires forall k :: 0 <= k < |ranked| ==> ranked[k].revenue >= 0
    requires RevenueTotal(ranked) > 0
    requires 0 <= i < |ranked| && 0 <= j < |ranked| && i <= j
    ensures AbcTable(ranked)[i].share.Finite? && AbcTable(ranked)[j].share.Finite?
    ensures AbcTable(ranked)[i].share.value <= AbcTable(ranked)[j].share.value
    ensures ClassRank(AbcTable(ranked)[i].abcClass) <= ClassRank(AbcTable(ranked)[j].abcClass)
  {
    var t := RevenueTotal(ranked);
    var ci, cj := RevenueTotal(ranked[..i + 1]), RevenueTotal(ranked[..j + 1]);
    assert AbcTable(ranked)[i] == AbcRowOf(ranked[i], ci, t);
    assert AbcTable(ranked)[j] == AbcRowOf(ranked[j], cj, t);
    PrefixRevenueGrows(ranked, i + 1, j + 1);
    ShareOrder(ci, cj, t);
    ClassifyMonotone(Percent(ci, t).value, Percent(cj, t).value);
  }

  /** With non-negative revenues summing to zero every share is 0 / 0
      (not-a-number), and every product is class C. */
  lemma {:induction false} AbcZeroRevenue(ranked: seq<ProductTotal>, i: int)
    requires forall k :: 0 <= k < |ranked| ==> ranked[k].revenue >= 0
    requires RevenueTotal(ranked) == 0
    requires 0 <= i < |ranked|
    ensures AbcTable(ranked)[i].share == NotANumber && AbcTable(ranked)[i].abcClass == C
  {
    PrefixRevenueGrows(ranked, i + 1, |ranked|);
    PrefixRevenueGrows(ranked, 0, i + 1);
    assert ranked[..|ranked|] == ranked;
  }
  /** The ABC table over the products of a ledger, for some revenue-descending
      order of them (the order of equal revenues is left open). */
  ghost predicate AbcTableOf(sales: seq<Sale>, rows: seq<AbcRow>) {
    && RevenueDescending(Ranking(rows))
    && multiset(Ranking(rows)) == multiset(SalesByProduct(sales))
    && rows == AbcTable(Ranking(rows))
  }

  /** Whatever order ties are put in, the table has one row per product sold,
      each row carries that product's own totals, and the running revenue ends
      at the ledger's total revenue. */
  lemma AbcTableOfLedger(sales: seq<Sale>, rows: seq<AbcRow>)
    requires AbcTableOf(sales, rows)
    ensures |rows| == |SalesByProduct(sales)|
    ensures forall row :: row in rows ==> TotalsProduct(sales, ProductTotal(row.product, row.revenue, row.quantity))
    ensures rows != [] ==> rows[|rows| - 1].cumulative == SaleTotal(sales, Revenue)
  {
    var ranked := Ranking(rows);
    var byProduct := SalesByProduct(sales);
    SalesByProductRows(sales);
    forall row | row in rows ensures TotalsProduct(sales, ProductTotal(row.product, row.revenue, row.quantity)) {
      var i :| 0 <= i < |rows| && rows[i] == row;
      assert ranked[i] == ProductTotal(row.product, row.revenue, row.quantity);
      assert ranked[i] in multiset(byProduct);
    }
    if rows != [] {
      AbcClosure(ranked);
      RevenueTotalPermutation(ranked, byProduct);
      SalesByProductRevenue(sales);
    }
  }
}
