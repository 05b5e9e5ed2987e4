/** The ETL pipeline object: it holds the fact table and the three derived
    tables, and its stages replace them in place. */
module Pipeline {
  import opened Wrappers
  import opened Sales
  import opened Grouping
  import opened Monthly
  import opened Rfm
  import opened Abc

  /** The fact table as it is read from storage: no derived columns yet. */
  function Loaded(sales: seq<Sale>): (facts: seq<Fact>)
    ensures SalesOf(facts) == sales
    ensures forall i :: 0 <= i < |facts| ==> facts[i].derived == None
  {
    seq(|sales|, i requires 0 <= i < |sales| => Fact(sales[i], None))
  }

  /** The derived columns added to every row of the fact table, in order. */
  method NormaliseFacts(facts: seq<Fact>) returns (derived: seq<Fact>)
    ensures |derived| == |facts|
    ensures forall i :: 0 <= i < |facts| ==> derived[i] == Normalised(facts[i])
    ensures forall i :: 0 <= i < |facts| ==>
              derived[i].sale == facts[i].sale && derived[i].derived == Some(Derive(facts[i].sale))
  {
    derived := [];
    for i := 0 to |facts|
      invariant |derived| == i
      invariant forall k :: 0 <= k < i ==> derived[k] == Normalised(facts[k])
    {
      derived := derived + [Normalised(facts[i])];
    }
  }

  /** abc_produtos: group by product, rank by revenue, accumulate and classify. */
  method BuildAbc(sales: seq<Sale>) returns (rows: seq<AbcRow>)
    ensures AbcTableOf(sales, rows)
  {
    var products := GroupSales(sales, ProductKey);
    var ranked := SortByRevenueDescending(ProductTotals(products));
    var cumulative := RunningRevenue(ranked);
    var total := if cumulative == [] then 0 else cumulative[|cumulative| - 1];
    assert ranked[..|ranked|] == ranked;
    rows := [];
    for k := 0 to |ranked|
      invariant rows == AbcPrefix(ranked, k, total)
    {
      rows := rows + [AbcRowOf(ranked[k], cumulative[k], total)];
    }
    RankingOfTable(ranked);
  }

  class EtlPipeline {
    /** fato_vendas */
    var facts: seq<Fact>
    /** vendas_mensais */
    var monthly: seq<MonthlyRow>
    /** rfm_clientes */
    var rfm: seq<RfmRow>
    /** abc_produtos */
    var abc: seq<AbcRow>

    constructor()
      ensures facts == [] && monthly == [] && rfm == [] && abc == []
    {
      facts := [];
      monthly := [];
      rfm := [];
      abc := [];
    }

    /** extract: `ledger` is what reading the sales file produced, None when it failed.
        On failure the fact table is left as it was. */
    method Extract(ledger: Option<seq<Sale>>) returns (ok: bool)
      modifies this
      ensures ok <==> ledger.Some?
      ensures ok ==> facts == Loaded(ledger.value)
      ensures !ok ==> facts == old(facts)
      ensures monthly == old(monthly) && rfm == old(rfm) && abc == old(abc)
    {
      if ledger.None? {
        return false;
      }
      facts := Loaded(ledger.value);
      return true;
    }

    /** transform: adds the derived columns to every sale, rebuilds the monthly
        table, then the RFM table and the ABC table. The binning of the RFM
        columns is the one step that can fail; it fails after the fact table and
        the monthly table have been replaced, and before the RFM and ABC tables are. */
    method Transform(asOf: int, rEdges: seq<real>, fEdges: seq<real>, mEdges: seq<real>) returns (ok: bool)
      modifies this
      ensures |facts| == |old(facts)|
      ensures forall i :: 0 <= i < |facts| ==> facts[i] == Normalised(old(facts)[i])
      ensures monthly == MonthlyRollup(SalesOf(old(facts)))
      ensures ok <==> CustomerRfm(SalesOf(old(facts)), asOf, rEdges, fEdges, mEdges).Some?
      ensures ok ==> rfm == CustomerRfm(SalesOf(old(facts)), asOf, rEdges, fEdges, mEdges).value
      ensures ok ==> AbcTableOf(SalesOf(old(facts)), abc)
      ensures !ok ==> rfm == old(rfm) && abc == old(abc)
    {
      var sales := SalesOf(facts);
      facts := NormaliseFacts(facts);
      var months := GroupSales(sales, MonthKey);
      monthly := Rollup(months);
      var customers := GroupSales(sales, CustomerKey);
      var scored := RfmScoring(customers, asOf, rEdges, fEdges, mEdges);
      if scored.None? {
        return false;
      }
      rfm := scored.value;
      abc := BuildAbc(sales);
      return true;
    }

    /** run: extract, transform and load, stopping at the first stage that
        fails. `written` is whether writing the four tables succeeded. */
    method Run(ledger: Option<seq<Sale>>, asOf: int, rEdges: seq<real>, fEdges: seq<real>,
               mEdges: seq<real>, written: bool)
      returns (ok: bool)
      modifies this
      ensures ok <==> ledger.Some? && CustomerRfm(ledger.value, asOf, rEdges, fEdges, mEdges).Some? && written
      ensures ledger.None? ==> facts == old(facts) && monthly == old(monthly) && rfm == old(rfm) && abc == old(abc)
      ensures ledger.Some? ==> SalesOf(facts) == ledger.value && monthly == MonthlyRollup(ledger.value)
      ensures ledger.Some? ==> forall i :: 0 <= i < |facts| ==> facts[i].derived == Some(Derive(facts[i].sale))
      ensures ledger.Some? && CustomerRfm(ledger.value, asOf, rEdges, fEdges, mEdges).None? ==>
                rfm == old(rfm) && abc == old(abc)
      ensures ledger.Some? && CustomerRfm(ledger.value, asOf, rEdges, fEdges, mEdges).Some? ==>
                rfm == CustomerRfm(ledger.value, asOf, rEdges, fEdges, mEdges).value
      ensures ledger.Some? && CustomerRfm(ledger.value, asOf, rEdges, fEdges, mEdges).Some? ==>
                AbcTableOf(ledger.value, abc)
    {
      ok := Extract(ledger);
      if !ok {
        return false;
      }
      ghost var sales := SalesOf(facts);
      ok := Transform(asOf, rEdges, fEdges, mEdges);
      assert SalesOf(facts) == sales;
      if !ok {
        return false;
      }
      return written;
    }
  }
}
