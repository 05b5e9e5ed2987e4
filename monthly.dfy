/** The monthly rollup (vendas_mensais): sales grouped by (year, month) with
    their summed revenue, profit and quantity, their count and the average ticket. */
module Monthly {
  import opened Sales
  import opened Grouping

  function MonthKey(s: Sale): Key {
    var d := Derive(s);
    Key(d.year, d.month)
  }

  /** Ano, Mes, Receita_Liquida, Lucro_Bruto, Quantidade, Qtd_Vendas, Ticket_Medio. */
  datatype MonthlyRow = MonthlyRow(year: int, month: int, revenue: int, profit: int,
                                   quantity: int, sales: int, ticket: real)

  function RollupRow(a: Acc): MonthlyRow {
    MonthlyRow(a.key.major, a.key.minor, a.revenue, a.profit, a.quantity, a.count,
               (a.revenue as real) / (a.count as real))
  }

  function Rollup(accs: seq<Acc>): seq<MonthlyRow> {
    seq(|accs|, j requires 0 <= j < |accs| => RollupRow(accs[j]))
  }

  /** The monthly table computed from the ledger. */
  function MonthlyRollup(sales: seq<Sale>): seq<MonthlyRow> {
    Rollup(Accumulate(sales, MonthKey))
  }

  /** The sales of one calendar month. */
  function InMonth(sales: seq<Sale>, year: int, month: int): seq<Sale> {
    Filter(sales, MonthKey, Key(year, month))
  }

  function MonthsOf(rows: seq<MonthlyRow>): set<(int, int)> {
    set r | r in rows :: (r.year, r.month)
  }

  function SaleMonths(sales: seq<Sale>): set<(int, int)> {
    set s | s in sales :: (Derive(s).year, Derive(s).month)
  }

  /** Rows come in ascending (year, month) order, so no month has two rows. */
  lemma MonthlyRollupOrdered(sales: seq<Sale>)
    ensures forall i, j :: 0 <= i < j < |MonthlyRollup(sales)| ==>
              var a, b := MonthlyRollup(sales)[i], MonthlyRollup(sales)[j];
              a.year < b.year || (a.year == b.year && a.month < b.month)
  {
    AccumulateGroups(sales, MonthKey);
  }

  /** There is a row for every month with a sale and for no other month. */
  lemma MonthlyRollupMonths(sales: seq<Sale>)
    ensures MonthsOf(MonthlyRollup(sales)) == SaleMonths(sales)
  {
    var accs := Accumulate(sales, MonthKey);
    var rows := MonthlyRollup(sales);
    AccumulateGroups(sales, MonthKey);
    forall ym | ym in MonthsOf(rows) ensures ym in SaleMonths(sales) {
      var row :| row in rows && (row.year, row.month) == ym;
      var j :| 0 <= j < |rows| && rows[j] == row;
      assert accs[j].key in KeysOf(accs);
      var s :| s in sales && MonthKey(s) == accs[j].key;
    }
    forall ym | ym in SaleMonths(sales) ensures ym in MonthsOf(rows) {
      var s :| s in sales && (Derive(s).year, Derive(s).month) == ym;
      assert MonthKey(s) in SaleKeys(sales, MonthKey);
      var a :| a in accs && a.key == MonthKey(s);
      var j :| 0 <= j < |accs| && accs[j] == a;
      assert rows[j] in rows;
    }
  }

  ghost predicate RowSummarisesMonth(sales: seq<Sale>, row: MonthlyRow) {
    && 1 <= row.month <= 12
    && var group := InMonth(sales, row.year, row.month);
    && group != []
    && row.sales == |group| >= 1
    && row.revenue == SaleTotal(group, Revenue)
    && row.profit == SaleTotal(group, Profit)
    && row.quantity == SaleTotal(group, Quantity)
    && row.ticket * (row.sales as real) == row.revenue as real
  }

  /** The row built from the sales of the month of sale s summarises that month. */
  lemma RollupRowSummarises(sales: seq<Sale>, s: Sale)
    requires s in sales
    ensures Filter(sales, MonthKey, MonthKey(s)) != []
    ensures RowSummarisesMonth(sales, RollupRow(Aggregate(MonthKey(s), Filter(sales, MonthKey, MonthKey(s)))))
  {
    var k := MonthKey(s);
    var group := Filter(sales, MonthKey, k);
    FilterHas(sales, MonthKey, s);
    var a := Aggregate(k, group);
    AggregateMeasures(k, group);
    var d := Derive(s);
    var row := RollupRow(a);
    assert InMonth(sales, row.year, row.month) == group;
    RollupRowTicket(a);
  }

  lemma RollupRowTicket(a: Acc)
    ensures RollupRow(a).ticket * (RollupRow(a).sales as real) == RollupRow(a).revenue as real
  {
  }

  /** Each row aggregates exactly the sales of its month: at least one sale,
      the sums and the count of that month's sales, and ticket = revenue / count. */
  lemma MonthlyRollupRows(sales: seq<Sale>)
    ensures forall row :: row in MonthlyRollup(sales) ==> RowSummarisesMonth(sales, row)
  {
    var accs := Accumulate(sales, MonthKey);
    var rows := MonthlyRollup(sales);
    AccumulateGroups(sales, MonthKey);
    forall row | row in rows
      ensures RowSummarisesMonth(sales, row)
    {
      var j :| 0 <= j < |rows| && rows[j] == row;
      assert accs[j] in accs;
      assert accs[j].key in KeysOf(accs);
      var s :| s in sales && MonthKey(s) == accs[j].key;
      RollupRowSummarises(sales, s);
    }
  }

  function RowMeasure(r: MonthlyRow, m: Measure): int {
    match m
    case Revenue => r.revenue
    case Profit => r.profit
    case Quantity => r.quantity
    case Count => r.sales
  }

  function RowTotal(rows: seq<MonthlyRow>, m: Measure): int {
    if rows == [] then 0 else RowMeasure(rows[0], m) + RowTotal(rows[1..], m)
  }

  lemma {:induction false} RollupTotal(accs: seq<Acc>, m: Measure)
    ensures RowTotal(Rollup(accs), m) == AccTotal(accs, m)
  {
    if accs != [] {
      RollupTotal(accs[1..], m);
      assert Rollup(accs)[1..] == Rollup(accs[1..]);
    }
  }

  /** Conservation: the monthly sums of revenue, profit, quantity and sale
      count add up to the ledger's totals. */
  lemma MonthlyConservation(sales: seq<Sale>, m: Measure)
    ensures RowTotal(MonthlyRollup(sales), m) == SaleTotal(sales, m)
  {
    RollupTotal(Accumulate(sales, MonthKey), m);
    AccumulateConserves(sales, MonthKey, m);
  }

  lemma MonthlyCountIsSalesCount(sales: seq<Sale>)
    ensures RowTotal(MonthlyRollup(sales), Count) == |sales|
  {
    MonthlyConservation(sales, Count);
    SaleCountIsLength(sales);
  }
}
