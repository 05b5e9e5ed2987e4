/** Customer RFM analysis (rfm_clientes): per customer, recency in days,
    frequency and monetary value; each metric scored 1..5 by quantile bins;
    the three scores joined into a score string; a segment chosen from the
    recency and frequency digits by an ordered rule chain. */
module Rfm {
  import opened Wrappers
  import opened Calendar
  import opened Sales
  import opened Grouping

  function CustomerKey(s: Sale): Key {
    Key(s.customer, 0)
  }

  /** Whole days from `latest` to `asOf`, rounded down as a time delta's day count is. */
  function RecencyDays(asOf: int, latest: int): (d: int)
    ensures d * SecondsPerDay <= asOf - latest < (d + 1) * SecondsPerDay
  {
    DayNumber(asOf - latest)
  }

  // ---------------------------------------------------------------------------
  // Quantile scoring

  /** Number of bin edges strictly below v: the index of the right-closed bin holding v. */
  function BinIndex(v: int, edges: seq<real>): (k: nat)
    ensures k <= |edges|
  {
    if edges == [] then 0
    else (if edges[0] < v as real then 1 else 0) + BinIndex(v, edges[1..])
  }

  ghost predicate Increasing(edges: seq<real>) {
    forall i, j :: 0 <= i < j < |edges| ==> edges[i] < edges[j]
  }

  lemma {:induction false} BinIndexMonotone(v: int, w: int, edges: seq<real>)
    requires v <= w
    ensures BinIndex(v, edges) <= BinIndex(w, edges)
  {
    if edges != [] {
      BinIndexMonotone(v, w, edges[1..]);
    }
  }

  lemma {:induction false} BinIndexNone(v: int, edges: seq<real>)
    requires forall i :: 0 <= i < |edges| ==> v as real <= edges[i]
    ensures BinIndex(v, edges) == 0
  {
    if edges != [] {
      BinIndexNone(v, edges[1..]);
    }
  }

  /** With increasing edges, v lies in bin k = BinIndex(v, edges):
      above edge k - 1 (if any) and at or below edge k (if any). */
  lemma {:induction false} BinIndexLocates(v: int, edges: seq<real>)
    requires Increasing(edges)
    ensures var k := BinIndex(v, edges);
            (k == 0 || edges[k - 1] < v as real) && (k == |edges| || v as real <= edges[k])
  {
    if edges != [] {
      var rest := edges[1..];
      if edges[0] < v as real {
        BinIndexLocates(v, rest);
      } else {
        assert forall i :: 0 <= i < |rest| ==> v as real <= rest[i] by {
          forall i | 0 <= i < |rest| ensures v as real <= rest[i] {
            assert edges[0] < edges[i + 1];
          }
        }
        BinIndexNone(v, rest);
      }
    }
  }

  /** qcut labels, listed from the lowest bin to the highest. */
  const RecencyLabels: seq<int> := [5, 4, 3, 2, 1]
  const DirectLabels: seq<int> := [1, 2, 3, 4, 5]

  /** R score of a recency, given the four inner quintile edges. */
  function RecencyScore(v: int, inner: seq<real>): (score: int)
    requires |inner| == 4
    ensures 1 <= score <= 5 && score == 5 - BinIndex(v, inner)
  {
    RecencyLabels[BinIndex(v, inner)]
  }

  /** F or M score of a frequency or monetary value, given the four inner quintile edges. */
  function DirectScore(v: int, inner: seq<real>): (score: int)
    requires |inner| == 4
    ensures 1 <= score <= 5 && score == 1 + BinIndex(v, inner)
  {
    DirectLabels[BinIndex(v, inner)]
  }

  /** A more recent customer never gets a lower R score. */
  lemma RecencyScoreReversed(v: int, w: int, inner: seq<real>)
    requires |inner| == 4 && v <= w
    ensures RecencyScore(w, inner) <= RecencyScore(v, inner)
  {
    BinIndexMonotone(v, w, inner);
  }

  /** A larger frequency or monetary value never gets a lower score. */
  lemma DirectScoreMonotone(v: int, w: int, inner: seq<real>)
    requires |inner| == 4 && v <= w
    ensures DirectScore(v, inner) <= DirectScore(w, inner)
  {
    BinIndexMonotone(v, w, inner);
  }

  /** The score names the right-closed bin (edge[k-2], edge[k-1]] that holds v. */
  lemma DirectScoreBin(v: int, inner: seq<real>)
    requires |inner| == 4 && Increasing(inner)
    ensures var k := DirectScore(v, inner);
            (k == 1 || inner[k - 2] < v as real) && (k == 5 || v as real <= inner[k - 1])
  {
    BinIndexLocates(v, inner);
  }

  function Min(xs: seq<int>): (m: int)
    requires xs != []
    ensures m in xs && forall x :: x in xs ==> m <= x
  {
    if |xs| == 1 then xs[0]
    else var rest := Min(xs[1..]); assert xs == [xs[0]] + xs[1..]; if xs[0] <= rest then xs[0] else rest
  }

  function Max(xs: seq<int>): (m: int)
    requires xs != []
    ensures m in xs && forall x :: x in xs ==> x <= m
  {
    if |xs| == 1 then xs[0]
    else var rest := Max(xs[1..]); assert xs == [xs[0]] + xs[1..]; if xs[0] >= rest then xs[0] else rest
  }

  /** The six quintile edges of a column (its minimum, the four inner edges,
      its maximum) can label five bins only when they are all distinct; as
      quantiles they are sorted, so distinct means strictly increasing. With
      fewer distinct edges than labels the binning is rejected. */
  predicate ValidEdges(column: seq<int>, inner: seq<real>) {
    && column != []
    && |inner| == 4
    && (Min(column) as real) < inner[0] < inner[1] < inner[2] < inner[3] < (Max(column) as real)
  }

  /** A column whose values are all equal cannot be cut into five bins. */
  lemma ConstantColumnRejected(column: seq<int>, inner: seq<real>)
    requires forall i :: 0 <= i < |column| ==> column[i] == column[0]
    ensures !ValidEdges(column, inner)
  {
    if column != [] {
      assert Min(column) == column[0] == Max(column);
    }
  }

  // ---------------------------------------------------------------------------
  // The score string

  function Digit(d: int): char
    requires 0 <= d <= 9
  {
    ('0' as int + d) as char
  }

  predicate IsDigit(c: char) {
    '0' <= c <= '9'
  }

  function DigitValue(c: char): int
    requires IsDigit(c)
  {
    c as int - '0' as int
  }

  /** R, F and M written one after the other. */
  function ScoreString(r: int, f: int, m: int): (s: string)
    requires 0 <= r <= 9 && 0 <= f <= 9 && 0 <= m <= 9
  {
    [Digit(r), Digit(f), Digit(m)]
  }

  /** Reads a score string back into its three digits. */
  function ParseScore(s: string): Option<(int, int, int)> {
    if |s| == 3 && IsDigit(s[0]) && IsDigit(s[1]) && IsDigit(s[2])
    then Some((DigitValue(s[0]), DigitValue(s[1]), DigitValue(s[2])))
    else None
  }

  /** The score string has three characters; the first is the R digit and the
      second the F digit, so reading it back gives the scores. */
  lemma ScoreStringRoundTrip(r: int, f: int, m: int)
    requires 0 <= r <= 9 && 0 <= f <= 9 && 0 <= m <= 9
    ensures |ScoreString(r, f, m)| == 3
    ensures ScoreString(r, f, m)[0] == Digit(r) && ScoreString(r, f, m)[1] == Digit(f)
    ensures ParseScore(ScoreString(r, f, m)) == Some((r, f, m))
  {
  }

  /** Every well-formed score string is the string of its own digits. */
  lemma ParseScoreInverse(s: string)
    requires ParseScore(s).Some?
    ensures var (r, f, m) := ParseScore(s).value;
            0 <= r <= 9 && 0 <= f <= 9 && 0 <= m <= 9 && ScoreString(r, f, m) == s
  {
  }

  // ---------------------------------------------------------------------------
  // Segments

  /** Segmento_RFM: Champions, Leais, Potencial, Em Risco, Perdidos. */
  datatype Segment = Champions | Leais | Potencial | EmRisco | Perdidos

  /** The rule chain, first match wins, on the R and F characters of the score. */
  function SegmentCustomer(score: string): Segment
    requires |score| >= 2
  {
    if score[0] in "45" && score[1] in "45" then Champions
    else if score[0] in "345" && score[1] in "34" then Leais
    else if score[0] in "45" && score[1] in "12" then Potencial
    else if score[0] in "23" && score[1] in "234" then EmRisco
    else Perdidos
  }

  /** The same chain as a table of (R digits, F digits, label) rules. */
  datatype Rule = Rule(recency: string, frequency: string, segment: Segment)

  const SegmentRules: seq<Rule> := [
    Rule("45", "45", Champions),
    Rule("345", "34", Leais),
    Rule("45", "12", Potencial),
    Rule("23", "234", EmRisco)
  ]

  predicate Matches(rule: Rule, score: string)
    requires |score| >= 2
  {
    score[0] in rule.recency && score[1] in rule.frequency
  }

  /** The label of the first rule that matches, Perdidos when none does. */
  function FirstMatch(rules: seq<Rule>, score: string): Segment
    requires |score| >= 2
  {
    if rules == [] then Perdidos
    else if Matches(rules[0], score) then rules[0].segment
    else FirstMatch(rules[1..], score)
  }

  lemma SegmentIsFirstMatch(score: string)
    requires |score| >= 2
    ensures SegmentCustomer(score) == FirstMatch(SegmentRules, score)
  {
    var rules := SegmentRules;
    assert rules[1..][1..][1..][1..] == [];
    assert FirstMatch(rules[1..][1..][1..], score) ==
           if Matches(rules[3], score) then EmRisco else Perdidos;
    assert FirstMatch(rules[1..][1..], score) ==
           if Matches(rules[2], score) then Potencial else FirstMatch(rules[1..][1..][1..], score);
    assert FirstMatch(rules[1..], score) ==
           if Matches(rules[1], score) then Leais else FirstMatch(rules[1..][1..], score);
  }

  /** The segment of scores R, F in 1..5, as a partition of the 5 x 5 grid:
      each label holds exactly for the (R, F) pairs listed, whatever M is. */
  lemma SegmentByScores(r: int, f: int, m: int)
    requires 1 <= r <= 5 && 1 <= f <= 5 && 1 <= m <= 5
    ensures var seg := SegmentCustomer(ScoreString(r, f, m));
      && (seg == Champions <==> r >= 4 && f >= 4)
      && (seg == Leais <==> (r == 3 && 3 <= f <= 4) || (r >= 4 && f == 3))
      && (seg == Potencial <==> r >= 4 && f <= 2)
      && (seg == EmRisco <==> (r == 2 && 2 <= f <= 4) || (r == 3 && f == 2))
      && (seg == Perdidos <==> r == 1 || (r <= 3 && (f == 1 || f == 5)))
  {
    var s := ScoreString(r, f, m);
    assert s[0] == Digit(r) && s[1] == Digit(f);
    assert s[0] in "45" <==> r >= 4;
    assert s[0] in "345" <==> r >= 3;
    assert s[0] in "23" <==> 2 <= r <= 3;
    assert s[1] in "45" <==> f >= 4;
    assert s[1] in "34" <==> 3 <= f <= 4;
    assert s[1] in "12" <==> f <= 2;
    assert s[1] in "234" <==> 2 <= f <= 4;
  }

  /** The segment depends on R and F only, never on M. */
  lemma SegmentIgnoresMonetary(r: int, f: int, m: int, m': int)
    requires 1 <= r <= 5 && 1 <= f <= 5 && 1 <= m <= 5 && 1 <= m' <= 5
    ensures SegmentCustomer(ScoreString(r, f, m)) == SegmentCustomer(ScoreString(r, f, m'))
  {
    SegmentByScores(r, f, m);
    SegmentByScores(r, f, m');
  }

  /** Precedence: (R, F) = (4, 4) matches both of the first two rules and gets the first's label. */
  lemma FirstMatchWins(m: int)
    requires 1 <= m <= 5
    ensures Matches(SegmentRules[0], ScoreString(4, 4, m)) && Matches(SegmentRules[1], ScoreString(4, 4, m))
    ensures SegmentCustomer(ScoreString(4, 4, m)) == Champions
  {
    var s := ScoreString(4, 4, m);
    assert s[0] == '4' && s[1] == '4';
    assert "345"[1] == '4' && "34"[1] == '4';
  }

  /** High-frequency pairs can fall through to Perdidos: (1, 5) always does, and
      (5, 5) would without the first rule. */
  lemma FallThroughToPerdidos(m: int)
    requires 1 <= m <= 5
    ensures SegmentCustomer(ScoreString(1, 5, m)) == Perdidos
    ensures FirstMatch(SegmentRules[1..], ScoreString(5, 5, m)) == Perdidos
  {
    var s := ScoreString(5, 5, m);
    var rules := SegmentRules;
    assert s[0] == '5' && s[1] == '5';
    assert !Matches(rules[1], s) && !Matches(rules[2], s) && !Matches(rules[3], s);
    assert rules[1..][1..][1..][1..] == [];
    assert FirstMatch(rules[1..][1..][1..], s) == Perdidos;
    assert FirstMatch(rules[1..][1..], s) == Perdidos;
    SegmentByScores(1, 5, m);
  }

  // ---------------------------------------------------------------------------
  // The RFM table

  /** ID_Cliente, Recencia, Frequencia, Monetario, R_Score, F_Score, M_Score,
      RFM_Score, Segmento_RFM. */
  datatype RfmRow = RfmRow(customer: int, recency: int, frequency: int, monetary: int,
                           r: int, f: int, m: int, score: string, segment: Segment)

  function Recencies(accs: seq<Acc>, asOf: int): seq<int> {
    seq(|accs|, j requires 0 <= j < |accs| => RecencyDays(asOf, accs[j].latest))
  }

  function Frequencies(accs: seq<Acc>): seq<int> {
    seq(|accs|, j requires 0 <= j < |accs| => accs[j].count)
  }

  function Monetaries(accs: seq<Acc>): seq<int> {
    seq(|accs|, j requires 0 <= j < |accs| => accs[j].revenue)
  }

  function ScoreRow(a: Acc, asOf: int, rEdges: seq<real>, fEdges: seq<real>, mEdges: seq<real>): RfmRow
    requires |rEdges| == 4 && |fEdges| == 4 && |mEdges| == 4
  {
    var recency := RecencyDays(asOf, a.latest);
    var r := RecencyScore(recency, rEdges);
    var f := DirectScore(a.count, fEdges);
    var m := DirectScore(a.revenue, mEdges);
    var score := ScoreString(r, f, m);
    RfmRow(a.key.major, recency, a.count, a.revenue, r, f, m, score, SegmentCustomer(score))
  }

  /** Scores the per-customer aggregates; None when one of the three binnings is rejected. */
  function RfmScoring(accs: seq<Acc>, asOf: int, rEdges: seq<real>, fEdges: seq<real>, mEdges: seq<real>)
    : Option<seq<RfmRow>>
  {
    if ValidEdges(Recencies(accs, asOf), rEdges) && ValidEdges(Frequencies(accs), fEdges)
       && ValidEdges(Monetaries(accs), mEdges)
    then Some(ScoreRows(accs, asOf, rEdges, fEdges, mEdges))
    else None
  }

  function ScoreRows(accs: seq<Acc>, asOf: int, rEdges: seq<real>, fEdges: seq<real>, mEdges: seq<real>)
    : seq<RfmRow>
    requires |rEdges| == 4 && |fEdges| == 4 && |mEdges| == 4
  {
    seq(|accs|, j requires 0 <= j < |accs| => ScoreRow(accs[j], asOf, rEdges, fEdges, mEdges))
  }

  /** The RFM table of a ledger measured at instant `asOf`. */
  function CustomerRfm(sales: seq<Sale>, asOf: int, rEdges: seq<real>, fEdges: seq<real>, mEdges: seq<real>)
    : Option<seq<RfmRow>>
  {
    RfmScoring(Accumulate(sales, CustomerKey), asOf, rEdges, fEdges, mEdges)
  }

  /** An empty ledger has no customers to bin: scoring fails. */
  lemma EmptyLedgerRejected(asOf: int, rEdges: seq<real>, fEdges: seq<real>, mEdges: seq<real>)
    ensures CustomerRfm([], asOf, rEdges, fEdges, mEdges) == None
  {
  }

  /** When every customer has the same number of sales, the frequency binning is rejected. */
  lemma EqualFrequenciesRejected(sales: seq<Sale>, asOf: int, rEdges: seq<real>, fEdges: seq<real>, mEdges: seq<real>)
    requires var accs := Accumulate(sales, CustomerKey);
             forall i :: 0 <= i < |accs| ==> accs[i].count == accs[0].count
    ensures CustomerRfm(sales, asOf, rEdges, fEdges, mEdges) == None
  {
    var column := Frequencies(Accumulate(sales, CustomerKey));
    forall i | 0 <= i < |column| ensures column[i] == column[0] {
      assert column[i] == Accumulate(sales, CustomerKey)[i].count;
    }
    ConstantColumnRejected(column, fEdges);
  }

  /** What one row says about its customer's sales: the frequency is their
      count, the monetary value their summed revenue, the recency the days
      since their latest sale; the scores are in 1..5, the score string holds
      them and the segment is the rule chain's. */
  ghost predicate RowDescribesCustomer(sales: seq<Sale>, asOf: int, rEdges: seq<real>, fEdges: seq<real>,
                                       mEdges: seq<real>, row: RfmRow)
    requires |rEdges| == 4 && |fEdges| == 4 && |mEdges| == 4
  {
    var group := Filter(sales, CustomerKey, Key(row.customer, 0));
    && group != []
    && row.frequency == |group|
    && row.monetary == SaleTotal(group, Revenue)
    && (exists s :: s in group && (forall t :: t in group ==> t.date <= s.date)
                   && row.recency == RecencyDays(asOf, s.date))
    && 1 <= row.r <= 5 && 1 <= row.f <= 5 && 1 <= row.m <= 5
    && row.r == RecencyScore(row.recency, rEdges)
    && row.f == DirectScore(row.frequency, fEdges)
    && row.m == DirectScore(row.monetary, mEdges)
    && row.score == ScoreString(row.r, row.f, row.m)
    && row.segment == SegmentCustomer(row.score)
  }

  lemma ScoreRowDescribes(sales: seq<Sale>, a: Acc, asOf: int, rEdges: seq<real>, fEdges: seq<real>,
                          mEdges: seq<real>)
    requires |rEdges| == 4 && |fEdges| == 4 && |mEdges| == 4
    requires a.key.minor == 0
    requires Filter(sales, CustomerKey, a.key) != []
    requires a == Aggregate(a.key, Filter(sales, CustomerKey, a.key))
    ensures RowDescribesCustomer(sales, asOf, rEdges, fEdges, mEdges, ScoreRow(a, asOf, rEdges, fEdges, mEdges))
  {
    var group := Filter(sales, CustomerKey, a.key);
    AggregateMeasures(a.key, group);
    var s :| s in group && s.date == a.latest;
  }

  /** Every row of a successful scoring describes its customer's sales. */
  lemma CustomerRfmRows(sales: seq<Sale>, asOf: int, rEdges: seq<real>, fEdges: seq<real>, mEdges: seq<real>)
    requires CustomerRfm(sales, asOf, rEdges, fEdges, mEdges).Some?
    ensures |rEdges| == 4 && |fEdges| == 4 && |mEdges| == 4
    ensures forall row :: row in CustomerRfm(sales, asOf, rEdges, fEdges, mEdges).value ==>
              RowDescribesCustomer(sales, asOf, rEdges, fEdges, mEdges, row)
  {
    var accs := Accumulate(sales, CustomerKey);
    var rows := CustomerRfm(sales, asOf, rEdges, fEdges, mEdges).value;
    AccumulateGroups(sales, CustomerKey);
    forall row | row in rows
      ensures RowDescribesCustomer(sales, asOf, rEdges, fEdges, mEdges, row)
    {
      var j :| 0 <= j < |rows| && rows[j] == row;
      var a := accs[j];
      assert a in accs;
      assert a.key in KeysOf(accs);
      var s :| s in sales && CustomerKey(s) == a.key;
      ScoreRowDescribes(sales, a, asOf, rEdges, fEdges, mEdges);
    }
  }

  function CustomersOf(rows: seq<RfmRow>): set<int> {
    set row | row in rows :: row.customer
  }

  function SaleCustomers(sales: seq<Sale>): set<int> {
    set s | s in sales :: s.customer
  }

  /** One row per customer with a sale, in ascending customer order. */
  lemma CustomerRfmOrdered(sales: seq<Sale>, asOf: int, rEdges: seq<real>, fEdges: seq<real>, mEdges: seq<real>)
    requires CustomerRfm(sales, asOf, rEdges, fEdges, mEdges).Some?
    ensures var rows := CustomerRfm(sales, asOf, rEdges, fEdges, mEdges).value;
            forall i, j :: 0 <= i < j < |rows| ==> rows[i].customer < rows[j].customer
  {
    var accs := Accumulate(sales, CustomerKey);
    var rows := CustomerRfm(sales, asOf, rEdges, fEdges, mEdges).value;
    AccumulateGroups(sales, CustomerKey);
    forall i, j | 0 <= i < j < |rows| ensures rows[i].customer < rows[j].customer {
      assert accs[i] in accs && accs[j] in accs;
      assert accs[i].key in KeysOf(accs) && accs[j].key in KeysOf(accs);
      var s :| s in sales && CustomerKey(s) == accs[i].key;
      var t :| t in sales && CustomerKey(t) == accs[j].key;
    }
  }

  lemma ScoredCustomers(sales: seq<Sale>, accs: seq<Acc>, asOf: int, rEdges: seq<real>, fEdges: seq<real>,
                        mEdges: seq<real>)
    requires |rEdges| == 4 && |fEdges| == 4 && |mEdges| == 4
    requires KeysOf(accs) == SaleKeys(sales, CustomerKey)
    ensures CustomersOf(ScoreRows(accs, asOf, rEdges, fEdges, mEdges)) == SaleCustomers(sales)
  {
    var rows := ScoreRows(accs, asOf, rEdges, fEdges, mEdges);
    forall c | c in CustomersOf(rows) ensures c in SaleCustomers(sales) {
      var row :| row in rows && row.customer == c;
      var j :| 0 <= j < |rows| && rows[j] == row;
      assert accs[j] in accs;
      assert accs[j].key in KeysOf(accs);
      var s :| s in sales && CustomerKey(s) == accs[j].key;
    }
    forall c | c in SaleCustomers(sales) ensures c in CustomersOf(rows) {
      var s :| s in sales && s.customer == c;
      assert CustomerKey(s) in SaleKeys(sales, CustomerKey);
      var a :| a in accs && a.key == CustomerKey(s);
      var j :| 0 <= j < |accs| && accs[j] == a;
      assert rows[j] in rows;
    }
  }

  /** The table lists exactly the customers that appear in the ledger. */
  lemma CustomerRfmCustomers(sales: seq<Sale>, asOf: int, rEdges: seq<real>, fEdges: seq<real>, mEdges: seq<real>)
    requires CustomerRfm(sales, asOf, rEdges, fEdges, mEdges).Some?
    ensures CustomersOf(CustomerRfm(sales, asOf, rEdges, fEdges, mEdges).value) == SaleCustomers(sales)
  {
    AccumulateGroups(sales, CustomerKey);
    ScoredCustomers(sales, Accumulate(sales, CustomerKey), asOf, rEdges, fEdges, mEdges);
  }

  function FrequencyTotal(rows: seq<RfmRow>): int {
    if rows == [] then 0 else rows[0].frequency + FrequencyTotal(rows[1..])
  }

  lemma {:induction false} ScoredFrequencyTotal(accs: seq<Acc>, asOf: int, rEdges: seq<real>, fEdges: seq<real>,
                                               mEdges: seq<real>)
    requires |rEdges| == 4 && |fEdges| == 4 && |mEdges| == 4
    ensures FrequencyTotal(ScoreRows(accs, asOf, rEdges, fEdges, mEdges)) == AccTotal(accs, Count)
  {
    if accs != [] {
      ScoredFrequencyTotal(accs[1..], asOf, rEdges, fEdges, mEdges);
      assert ScoreRows(accs, asOf, rEdges, fEdges, mEdges)[1..] == ScoreRows(accs[1..], asOf, rEdges, fEdges, mEdges);
    }
  }

  /** The frequencies add up to the number of sales in the ledger. */
  lemma CustomerRfmFrequencies(sales: seq<Sale>, asOf: int, rEdges: seq<real>, fEdges: seq<real>, mEdges: seq<real>)
    requires CustomerRfm(sales, asOf, rEdges, fEdges, mEdges).Some?
    ensures FrequencyTotal(CustomerRfm(sales, asOf, rEdges, fEdges, mEdges).value) == |sales|
  {
    ScoredFrequencyTotal(Accumulate(sales, CustomerKey), asOf, rEdges, fEdges, mEdges);
    AccumulateConserves(sales, CustomerKey, Count);
    SaleCountIsLength(sales);
  }

  /** Across the table, R falls as recency grows and F, M rise with frequency and monetary value. */
  lemma CustomerRfmScoreDirection(sales: seq<Sale>, asOf: int, rEdges: seq<real>, fEdges: seq<real>,
                                  mEdges: seq<real>, i: int, j: int)
    requires CustomerRfm(sales, asOf, rEdges, fEdges, mEdges).Some?
    requires 0 <= i < |CustomerRfm(sales, asOf, rEdges, fEdges, mEdges).value|
    requires 0 <= j < |CustomerRfm(sales, asOf, rEdges, fEdges, mEdges).value|
    ensures var rows := CustomerRfm(sales, asOf, rEdges, fEdges, mEdges).value;
            && (rows[i].recency <= rows[j].recency ==> rows[j].r <= rows[i].r)
            && (rows[i].frequency <= rows[j].frequency ==> rows[i].f <= rows[j].f)
            && (rows[i].monetary <= rows[j].monetary ==> rows[i].m <= rows[j].m)
  {
    var rows := CustomerRfm(sales, asOf, rEdges, fEdges, mEdges).value;
    if rows[i].recency <= rows[j].recency {
      RecencyScoreReversed(rows[i].recency, rows[j].recency, rEdges);
    }
    if rows[i].frequency <= rows[j].frequency {
      DirectScoreMonotone(rows[i].frequency, rows[j].frequency, fEdges);
    }
    if rows[i].monetary <= rows[j].monetary {
      DirectScoreMonotone(rows[i].monetary, rows[j].monetary, mEdges);
    }
  }
}
