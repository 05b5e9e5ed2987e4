/** The sale ledger (fato_vendas) and the per-sale fields the normaliser adds. */
module Sales {
  import opened Wrappers
  import opened Calendar

  /** One transaction. `date` is a timestamp in seconds since 1970-01-01T00:00:00;
      `revenue` (net revenue) and `profit` (gross profit) are in cents. */
  datatype Sale = Sale(id: int, customer: int, product: int, date: int,
                       quantity: int, revenue: int, profit: int)

  /** The outcome of a float division: a finite value, or the IEEE infinities
      and not-a-number that dividing by a zero total produces. */
  datatype Quotient = Finite(value: real) | PlusInfinity | MinusInfinity | NotANumber

  /** `part / whole * 100`, as a float computation would give it. */
  function Percent(part: int, whole: int): (q: Quotient)
    ensures whole != 0 <==> q.Finite?
    ensures q.Finite? ==> q.value * (whole as real) == (part as real) * 100.0
    ensures whole == 0 ==> (q == PlusInfinity <==> part > 0) && (q == MinusInfinity <==> part < 0)
  {
    if whole != 0 then Finite((part as real) / (whole as real) * 100.0)
    else if part > 0 then PlusInfinity
    else if part < 0 then MinusInfinity
    else NotANumber
  }

  /** The columns added to each sale: year (Ano), month (Mes),
      day of week (Dia_Semana, Monday = 0) and margin % (Margem_Pct). */
  datatype Derived = Derived(year: int, month: int, weekday: int, margin: Quotient)

  function Derive(s: Sale): (d: Derived)
    ensures 1 <= d.month <= 12 && 0 <= d.weekday <= 6
    ensures d.weekday == Weekday(DayNumber(s.date))
    ensures exists day {:trigger Date(d.year, d.month, day)} ::
              ValidDate(Date(d.year, d.month, day)) &&
              DaysFromCivil(Date(d.year, d.month, day)) == DayNumber(s.date)
    ensures d.margin == Percent(s.profit, s.revenue)
  {
    var n := DayNumber(s.date);
    var date := CivilFromDays(n);
    Derived(date.year, date.month, Weekday(n), Percent(s.profit, s.revenue))
  }

  /** A row of the fact table: the sale and, once normalised, its derived columns. */
  datatype Fact = Fact(sale: Sale, derived: Option<Derived>)

  function SalesOf(facts: seq<Fact>): (sales: seq<Sale>)
    ensures |sales| == |facts|
    ensures forall i :: 0 <= i < |facts| ==> sales[i] == facts[i].sale
  {
    seq(|facts|, i requires 0 <= i < |facts| => facts[i].sale)
  }

  function Normalised(f: Fact): (g: Fact)
  {
    Fact(f.sale, Some(Derive(f.sale)))
  }
}
