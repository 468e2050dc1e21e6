/** services/dashboard_service.go: three groupings of one record table. */
module Dashboard {
  import opened Common
  import opened Sums
  import opened Tables

  // ---- grouped sums ----

  datatype Axis = ByCurrency | ByMonth | ByCategory

  /** A group: the columns it does not use are None. */
  datatype Key = Key(currency: string, month: Option<(int, int)>, category: Option<string>)

  function KeyOf(r: Record, axis: Axis): Key {
    Key(r.currency,
        if axis == ByMonth then Some((r.date.year, r.date.month)) else None,
        if axis == ByCategory then Some(r.category) else None)
  }

  datatype Measure = IncomeSum | ExpenseSum | TotalSum | RowCount

  function Value(r: Record, m: Measure): int {
    match m
    case IncomeSum => if r.kind == Income then r.amount else 0
    case ExpenseSum => if r.kind == Outlay then r.amount else 0
    case TotalSum => r.amount
    case RowCount => 1
  }

  /** What one row adds to a group; soft-deleted rows add nothing. */
  function Contribution(r: Record, axis: Axis, key: Key, m: Measure): int {
    if !r.deleted && KeyOf(r, axis) == key then Value(r, m) else 0
  }

  ghost function Contributions(records: map<Id, Record>, axis: Axis, key: Key, m: Measure): map<Id, int> {
    map id | id in records :: Contribution(records[id], axis, key, m)
  }

  ghost function Aggregate(records: map<Id, Record>, axis: Axis, key: Key, m: Measure): int {
    Sum(Contributions(records, axis, key, m))
  }

  /** GROUP BY: one group per key of a visible row. */
  function Groups(records: map<Id, Record>, axis: Axis): set<Key> {
    set id | id in records && !records[id].deleted :: KeyOf(records[id], axis)
  }

  // ---- steps change sums by exactly the record's contribution ----

  lemma AggregateUpdate(records: map<Id, Record>, id: Id, r: Record, axis: Axis, key: Key, m: Measure)
    ensures Aggregate(records[id := r], axis, key, m)
         == Aggregate(records, axis, key, m) + Contribution(r, axis, key, m)
            - if id in records then Contribution(records[id], axis, key, m) else 0
  {
    var before := Contributions(records, axis, key, m);
    assert Contributions(records[id := r], axis, key, m) == before[id := Contribution(r, axis, key, m)];
    SumUpdate<Id>(before, id, Contribution(r, axis, key, m));
  }

  /** Which rows a figure counts, and with what: an income counts towards income, an
      expense towards expenses, in the line of its currency, of its currency and month, and
      of its currency and category; a deleted row counts nowhere. */
  lemma ContributionIs(r: Record, currency: string, year: int, month: int, category: string, m: Measure)
    ensures var worth := match m
                         case IncomeSum => if r.kind == Income then r.amount else 0
                         case ExpenseSum => if r.kind == Outlay then r.amount else 0
                         case TotalSum => r.amount
                         case RowCount => 1;
            var here := !r.deleted && r.currency == currency;
            && Contribution(r, ByCurrency, Key(currency, None, None), m) == (if here then worth else 0)
            && Contribution(r, ByMonth, Key(currency, Some((year, month)), None), m)
               == (if here && r.date.year == year && r.date.month == month then worth else 0)
            && Contribution(r, ByCategory, Key(currency, None, Some(category)), m)
               == (if here && r.category == category then worth else 0)
  {
  }

  /** The lines of each dashboard: one for every currency, currency and month, currency
      and category of a record that is not deleted. */
  lemma GroupsAre(records: map<Id, Record>, currency: string, year: int, month: int, category: string)
    ensures Key(currency, None, None) in Groups(records, ByCurrency)
            <==> exists id :: id in records && !records[id].deleted && records[id].currency == currency
    ensures Key(currency, Some((year, month)), None) in Groups(records, ByMonth)
            <==> exists id :: id in records && !records[id].deleted && records[id].currency == currency
                              && records[id].date.year == year && records[id].date.month == month
    ensures Key(currency, None, Some(category)) in Groups(records, ByCategory)
            <==> exists id :: id in records && !records[id].deleted && records[id].currency == currency
                              && records[id].category == category
  {
    if id :| id in records && !records[id].deleted && records[id].currency == currency {
      assert KeyOf(records[id], ByCurrency) == Key(currency, None, None);
    }
    if id :| id in records && !records[id].deleted && records[id].currency == currency
             && records[id].date.year == year && records[id].date.month == month {
      assert KeyOf(records[id], ByMonth) == Key(currency, Some((year, month)), None);
    }
    if id :| id in records && !records[id].deleted && records[id].currency == currency
             && records[id].category == category {
      assert KeyOf(records[id], ByCategory) == Key(currency, None, Some(category));
    }
  }

  // ---- the finer groupings re-sum to the summary ----

  ghost function Resum(records: map<Id, Record>, axis: Axis, keys: set<Key>, m: Measure): map<Key, int> {
    map k | k in keys :: Aggregate(records, axis, k, m)
  }

  function CurrencyKey(currency: string): Key {
    Key(currency, None, None)
  }

  /** Keys of one currency that cover every visible row of it. */
  ghost predicate Covers(records: map<Id, Record>, axis: Axis, currency: string, keys: set<Key>) {
    && (forall k | k in keys :: k.currency == currency)
    && (forall id | id in records && !records[id].deleted && records[id].currency == currency ::
          KeyOf(records[id], axis) in keys)
  }

  ghost function Shares(r: Record, axis: Axis, keys: set<Key>, m: Measure): map<Key, int> {
    map k | k in keys :: Contribution(r, axis, k, m)
  }

  /** One row counts in exactly one group of its currency. */
  lemma SharesSum(r: Record, axis: Axis, currency: string, keys: set<Key>, m: Measure)
    requires forall k | k in keys :: k.currency == currency
    requires !r.deleted && r.currency == currency ==> KeyOf(r, axis) in keys
    ensures Sum(Shares(r, axis, keys, m)) == Contribution(r, ByCurrency, CurrencyKey(currency), m)
  {
    var shares := Shares(r, axis, keys, m);
    if !r.deleted && r.currency == currency {
      var k := KeyOf(r, axis);
      SumRemove<Key>(shares, k);
      SumZero<Key>(shares - {k});
    } else {
      SumZero<Key>(shares);
    }
  }

  lemma ResumOne(records: map<Id, Record>, id: Id, axis: Axis, keys: set<Key>, m: Measure)
    requires id in records
    ensures Sum(Resum(records, axis, keys, m))
         == Sum(Resum(records - {id}, axis, keys, m)) + Sum(Shares(records[id], axis, keys, m))
  {
    var rest := records - {id};
    assert rest[id := records[id]] == records;
    forall k | k in keys { AggregateUpdate(rest, id, records[id], axis, k, m); }
    SumPlus<Key>(Resum(rest, axis, keys, m), Shares(records[id], axis, keys, m), Resum(records, axis, keys, m));
  }

  lemma AggregateOne(records: map<Id, Record>, id: Id, axis: Axis, key: Key, m: Measure)
    requires id in records
    ensures Aggregate(records, axis, key, m)
         == Aggregate(records - {id}, axis, key, m) + Contribution(records[id], axis, key, m)
  {
    var rest := records - {id};
    AggregateUpdate(rest, id, records[id], axis, key, m);
    assert rest[id := records[id]] == records;
  }

  lemma {:induction false} ResumCovering(records: map<Id, Record>, axis: Axis, currency: string, keys: set<Key>,
                                         m: Measure)
    requires Covers(records, axis, currency, keys)
    ensures Sum(Resum(records, axis, keys, m)) == Aggregate(records, ByCurrency, CurrencyKey(currency), m)
    decreases records.Keys
  {
    if id :| id in records {
      ResumCovering(records - {id}, axis, currency, keys, m);
      ResumOne(records, id, axis, keys, m);
      SharesSum(records[id], axis, currency, keys, m);
      AggregateOne(records, id, ByCurrency, CurrencyKey(currency), m);
    } else {
      ResumNothing(records, axis, currency, keys, m);
    }
  }

  lemma ResumNothing(records: map<Id, Record>, axis: Axis, currency: string, keys: set<Key>, m: Measure)
    requires records.Keys == {}
    ensures Sum(Resum(records, axis, keys, m)) == Aggregate(records, ByCurrency, CurrencyKey(currency), m)
  {
    forall k | k in keys { SumZero<Id>(Contributions(records, axis, k, m)); }
    SumZero<Key>(Resum(records, axis, keys, m));
    SumZero<Id>(Contributions(records, ByCurrency, CurrencyKey(currency), m));
  }

  function GroupsOf(records: map<Id, Record>, axis: Axis, currency: string): set<Key> {
    set k | k in Groups(records, axis) && k.currency == currency
  }

  /** For every record table and currency, the monthly rows and the category rows each
      add up to the summary line: income, expense, total and record count. */
  lemma DashboardsAgree(records: map<Id, Record>, currency: string, axis: Axis, m: Measure)
    ensures Sum(Resum(records, axis, GroupsOf(records, axis, currency), m))
         == Aggregate(records, ByCurrency, CurrencyKey(currency), m)
  {
    ResumCovering(records, axis, currency, GroupsOf(records, axis, currency), m);
  }

  /** Every group's total is its income plus its expense. */
  lemma TotalIsIncomePlusExpense(records: map<Id, Record>, axis: Axis, key: Key)
    ensures Aggregate(records, axis, key, TotalSum)
         == Aggregate(records, axis, key, IncomeSum) + Aggregate(records, axis, key, ExpenseSum)
  {
    SumPlus<Id>(Contributions(records, axis, key, IncomeSum), Contributions(records, axis, key, ExpenseSum),
                Contributions(records, axis, key, TotalSum));
  }

  // ---- the queries and the loops over their rows ----

  datatype Row = Row(key: Key, income: int, expense: int, total: int, count: int)

  /** The row a group should have. */
  ghost function RowFor(records: map<Id, Record>, axis: Axis, key: Key): Row {
    Row(key, Aggregate(records, axis, key, IncomeSum), Aggregate(records, axis, key, ExpenseSum),
        Aggregate(records, axis, key, TotalSum), Aggregate(records, axis, key, RowCount))
  }

  ghost predicate RowOk(records: map<Id, Record>, axis: Axis, r: Row) {
    r == RowFor(records, axis, r.key)
  }

  datatype SummaryLine = SummaryLine(income: int, expenses: int, net: int, records: int)

  datatype TrendLine = TrendLine(currency: string, month: Option<(int, int)>, income: int, expense: int, net: int)

  datatype CategoryLine = CategoryLine(currency: string, category: Option<string>, income: int, expense: int,
                                       total: int, count: int)

  /** ORDER BY month ASC for trends, total DESC for categories, nothing for the summary. */
  function Rank(axis: Axis, r: Row): int {
    match axis
    case ByCurrency => 0
    case ByMonth => if r.key.month.Some? then 12 * r.key.month.value.0 + r.key.month.value.1 else 0
    case ByCategory => -r.total
  }

  ghost predicate Ordered(axis: Axis, rows: seq<Row>) {
    forall i, j | 0 <= i < j < |rows| :: Rank(axis, rows[i]) <= Rank(axis, rows[j])
  }

  /** Months in calendar order, categories by falling total. */
  lemma RankOrders(a: Row, b: Row)
    requires a.key.month.Some? && 1 <= a.key.month.value.1 <= 12
    requires b.key.month.Some? && 1 <= b.key.month.value.1 <= 12
    ensures Rank(ByMonth, a) <= Rank(ByMonth, b)
            <==> a.key.month.value.0 < b.key.month.value.0
                 || (a.key.month.value.0 == b.key.month.value.0 && a.key.month.value.1 <= b.key.month.value.1)
    ensures Rank(ByCategory, a) <= Rank(ByCategory, b) <==> a.total >= b.total
  {
  }

  /** Net is income minus expense, in the summary and in the trends. */
  lemma NetIs(r: Row)
    ensures SummaryOf(r).net == r.income - r.expense && TrendOf(r).net == r.income - r.expense
  {
  }

  lemma InsertedOrdered(axis: Axis, rows: seq<Row>, r: Row, at: nat)
    requires Ordered(axis, rows) && at <= |rows|
    requires forall i | 0 <= i < at :: Rank(axis, rows[i]) <= Rank(axis, r)
    requires forall i | at <= i < |rows| :: Rank(axis, r) <= Rank(axis, rows[i])
    ensures Ordered(axis, rows[..at] + [r] + rows[at..])
  {
  }

  /** One correct row for every group of `done`, in order. */
  ghost predicate ResultSet(records: map<Id, Record>, axis: Axis, rows: seq<Row>, done: set<Key>) {
    && (forall r | r in rows :: RowOk(records, axis, r) && r.key in done)
    && (forall k | k in done :: exists r :: r in rows && r.key == k)
    && |rows| == |done|
    && Ordered(axis, rows)
  }

  lemma ResultSetGrows(records: map<Id, Record>, axis: Axis, rows: seq<Row>, more: seq<Row>, row: Row,
                       done: set<Key>)
    requires ResultSet(records, axis, rows, done) && RowOk(records, axis, row) && row.key !in done
    requires Ordered(axis, more) && |more| == |rows| + 1
    requires forall r :: r in more <==> r in rows || r == row
    ensures ResultSet(records, axis, more, done + {row.key})
  {
    forall k | k in done + {row.key} ensures exists r :: r in more && r.key == k {
      if k in done {
        var r :| r in rows && r.key == k;
        assert r in more;
      } else {
        assert row in more;
      }
    }
  }

  function SummaryOf(r: Row): SummaryLine {
    SummaryLine(r.income, r.expense, r.income - r.expense, r.count)
  }

  function TrendOf(r: Row): TrendLine {
    TrendLine(r.key.currency, r.key.month, r.income, r.expense, r.income - r.expense)
  }

  function CategoryOf(r: Row): CategoryLine {
    CategoryLine(r.key.currency, r.key.category, r.income, r.expense, r.total, r.count)
  }

  function TrendKey(t: TrendLine): Key {
    Key(t.currency, t.month, None)
  }

  function CategoryKey(c: CategoryLine): Key {
    Key(c.currency, None, c.category)
  }

  function TrendKeys(trends: seq<TrendLine>): seq<Key> {
    seq(|trends|, i requires 0 <= i < |trends| => TrendKey(trends[i]))
  }

  function CategoryKeys(breakdown: seq<CategoryLine>): seq<Key> {
    seq(|breakdown|, i requires 0 <= i < |breakdown| => CategoryKey(breakdown[i]))
  }

  function KeysOf(rows: seq<Row>): seq<Key> {
    seq(|rows|, i requires 0 <= i < |rows| => rows[i].key)
  }

  /** The keys list every group of the table once, in the order of the query. */
  ghost predicate Tabulates(records: map<Id, Record>, axis: Axis, keys: seq<Key>) {
    && (forall k :: k in keys <==> k in Groups(records, axis))
    && |keys| == |Groups(records, axis)|
    && forall i, j | 0 <= i < j < |keys| ::
         Rank(axis, RowFor(records, axis, keys[i])) <= Rank(axis, RowFor(records, axis, keys[j]))
  }

  lemma ResultTabulates(records: map<Id, Record>, axis: Axis, rows: seq<Row>)
    requires ResultSet(records, axis, rows, Groups(records, axis))
    ensures Tabulates(records, axis, KeysOf(rows))
  {
    var keys := KeysOf(rows);
    forall k | k in Groups(records, axis) ensures k in keys {
      var r :| r in rows && r.key == k;
      var i :| 0 <= i < |rows| && rows[i] == r;
      assert keys[i] == k;
    }
    forall k | k in keys ensures k in Groups(records, axis) {
      var i :| 0 <= i < |keys| && keys[i] == k;
      assert rows[i] in rows;
    }
    forall i | 0 <= i < |rows| ensures rows[i] == RowFor(records, axis, keys[i]) {
      assert rows[i] in rows;
    }
  }

  lemma TrendsTabulate(records: map<Id, Record>, rows: seq<Row>, trends: seq<TrendLine>)
    requires ResultSet(records, ByMonth, rows, Groups(records, ByMonth))
    requires |trends| == |rows| && forall i | 0 <= i < |rows| :: trends[i] == TrendOf(rows[i])
    ensures Tabulates(records, ByMonth, TrendKeys(trends))
    ensures forall t | t in trends :: t == TrendOf(RowFor(records, ByMonth, TrendKey(t)))
  {
    forall i | 0 <= i < |rows| ensures TrendKey(trends[i]) == rows[i].key && RowOk(records, ByMonth, rows[i]) {
      assert rows[i] in rows;
    }
    assert TrendKeys(trends) == KeysOf(rows);
    ResultTabulates(records, ByMonth, rows);
  }

  lemma BreakdownTabulates(records: map<Id, Record>, rows: seq<Row>, breakdown: seq<CategoryLine>)
    requires ResultSet(records, ByCategory, rows, Groups(records, ByCategory))
    requires |breakdown| == |rows| && forall i | 0 <= i < |rows| :: breakdown[i] == CategoryOf(rows[i])
    ensures Tabulates(records, ByCategory, CategoryKeys(breakdown))
    ensures forall c | c in breakdown :: c == CategoryOf(RowFor(records, ByCategory, CategoryKey(c)))
  {
    forall i | 0 <= i < |rows| ensures CategoryKey(breakdown[i]) == rows[i].key && RowOk(records, ByCategory, rows[i]) {
      assert rows[i] in rows;
    }
    assert CategoryKeys(breakdown) == KeysOf(rows);
    ResultTabulates(records, ByCategory, rows);
  }

  // ---- the returned lines add up ----

  /** A measure summed over the listed groups of a currency. */
  ghost function ListSum(records: map<Id, Record>, axis: Axis, keys: seq<Key>, currency: string, m: Measure): int {
    if keys == [] then 0
    else
      var k := keys[|keys| - 1];
      ListSum(records, axis, keys[..|keys| - 1], currency, m)
      + if k.currency == currency then Aggregate(records, axis, k, m) else 0
  }

  function Listed(keys: seq<Key>, currency: string): set<Key> {
    set k | k in keys && k.currency == currency
  }

  lemma {:induction false} ListIsResum(records: map<Id, Record>, axis: Axis, keys: seq<Key>, currency: string,
                                       m: Measure)
    requires forall i, j | 0 <= i < j < |keys| :: keys[i] != keys[j]
    ensures ListSum(records, axis, keys, currency, m) == Sum(Resum(records, axis, Listed(keys, currency), m))
  {
    if keys == [] {
      SumZero<Key>(Resum(records, axis, {}, m));
    } else {
      var init, k := keys[..|keys| - 1], keys[|keys| - 1];
      assert forall i | 0 <= i < |init| :: init[i] == keys[i];
      ListIsResum(records, axis, init, currency, m);
      ListedLast(keys, currency);
      if k.currency == currency {
        ResumMore(records, axis, Listed(init, currency), k, m);
      } else {
        assert Listed(keys, currency) == Listed(init, currency);
      }
    }
  }

  lemma ListedLast(keys: seq<Key>, currency: string)
    requires keys != [] && forall i, j | 0 <= i < j < |keys| :: keys[i] != keys[j]
    ensures var init, k := keys[..|keys| - 1], keys[|keys| - 1];
            && k !in Listed(init, currency)
            && Listed(keys, currency) == Listed(init, currency) + if k.currency == currency then {k} else {}
  {
    assert keys == keys[..|keys| - 1] + [keys[|keys| - 1]];
  }

  lemma ResumMore(records: map<Id, Record>, axis: Axis, keys: set<Key>, k: Key, m: Measure)
    requires k !in keys
    ensures Sum(Resum(records, axis, keys + {k}, m))
         == Sum(Resum(records, axis, keys, m)) + Aggregate(records, axis, k, m)
  {
    var before := Resum(records, axis, keys, m);
    assert Resum(records, axis, keys + {k}, m) == before[k := Aggregate(records, axis, k, m)];
    SumUpdate<Key>(before, k, Aggregate(records, axis, k, m));
  }

  /** Listing every group once gives the summary figure. */
  lemma ListAgrees(records: map<Id, Record>, axis: Axis, keys: seq<Key>, currency: string, m: Measure)
    requires Tabulates(records, axis, keys)
    ensures ListSum(records, axis, keys, currency, m) == Aggregate(records, ByCurrency, CurrencyKey(currency), m)
  {
    assert (set k | k in keys) == Groups(records, axis);
    NoRepeats(keys);
    ListIsResum(records, axis, keys, currency, m);
    assert Listed(keys, currency) == GroupsOf(records, axis, currency);
    DashboardsAgree(records, currency, axis, m);
  }

  function SummaryFigure(line: SummaryLine, m: Measure): int {
    match m
    case IncomeSum => line.income
    case ExpenseSum => line.expenses
    case TotalSum => line.income + line.expenses
    case RowCount => line.records
  }

  function CategoryFigure(line: CategoryLine, m: Measure): int {
    match m
    case IncomeSum => line.income
    case ExpenseSum => line.expense
    case TotalSum => line.total
    case RowCount => line.count
  }

  /** Trend lines carry no record count. */
  function TrendFigure(line: TrendLine, m: Measure): int
    requires m != RowCount
  {
    match m
    case IncomeSum => line.income
    case ExpenseSum => line.expense
    case TotalSum => line.income + line.expense
  }

  /** A figure summed over the trend lines of a currency. */
  function TrendSum(trends: seq<TrendLine>, currency: string, m: Measure): int
    requires m != RowCount
  {
    if trends == [] then 0
    else
      var t := trends[|trends| - 1];
      TrendSum(trends[..|trends| - 1], currency, m) + if t.currency == currency then TrendFigure(t, m) else 0
  }

  /** A figure summed over the category lines of a currency. */
  function CategorySum(breakdown: seq<CategoryLine>, currency: string, m: Measure): int {
    if breakdown == [] then 0
    else
      var c := breakdown[|breakdown| - 1];
      CategorySum(breakdown[..|breakdown| - 1], currency, m)
      + if c.currency == currency then CategoryFigure(c, m) else 0
  }

  /** The figures of an exact line are the aggregates of its group. */
  lemma FiguresOf(records: map<Id, Record>, axis: Axis, key: Key, m: Measure)
    ensures var row := RowFor(records, axis, key);
            && SummaryFigure(SummaryOf(row), m) == Aggregate(records, axis, key, m)
            && CategoryFigure(CategoryOf(row), m) == Aggregate(records, axis, key, m)
            && (m != RowCount ==> TrendFigure(TrendOf(row), m) == Aggregate(records, axis, key, m))
  {
    TotalIsIncomePlusExpense(records, axis, key);
  }

  lemma {:induction false} TrendSumListed(records: map<Id, Record>, trends: seq<TrendLine>, currency: string,
                                          m: Measure)
    requires m != RowCount
    requires forall t | t in trends :: t == TrendOf(RowFor(records, ByMonth, TrendKey(t)))
    ensures TrendSum(trends, currency, m) == ListSum(records, ByMonth, TrendKeys(trends), currency, m)
  {
    if trends != [] {
      var init, t := trends[..|trends| - 1], trends[|trends| - 1];
      TrendSumListed(records, init, currency, m);
      assert t in trends && TrendKeys(trends)[..|init|] == TrendKeys(init);
      FiguresOf(records, ByMonth, TrendKey(t), m);
    }
  }

  lemma {:induction false} CategorySumListed(records: map<Id, Record>, breakdown: seq<CategoryLine>, currency: string,
                                             m: Measure)
    requires forall c | c in breakdown :: c == CategoryOf(RowFor(records, ByCategory, CategoryKey(c)))
    ensures CategorySum(breakdown, currency, m) == ListSum(records, ByCategory, CategoryKeys(breakdown), currency, m)
  {
    if breakdown != [] {
      var init, c := breakdown[..|breakdown| - 1], breakdown[|breakdown| - 1];
      CategorySumListed(records, init, currency, m);
      assert c in breakdown && CategoryKeys(breakdown)[..|init|] == CategoryKeys(init);
      FiguresOf(records, ByCategory, CategoryKey(c), m);
    }
  }

  /** What the three calls return on one table agrees: for every figure, the trend lines
      and the category lines of a currency each add up to its summary line, and a currency
      without a summary line has no other line either. */
  lemma ReturnedLinesAgree(records: map<Id, Record>, summary: map<string, SummaryLine>, trends: seq<TrendLine>,
                           breakdown: seq<CategoryLine>, currency: string, m: Measure)
    requires forall c :: c in summary <==> CurrencyKey(c) in Groups(records, ByCurrency)
    requires forall c | c in summary :: summary[c] == SummaryOf(RowFor(records, ByCurrency, CurrencyKey(c)))
    requires Tabulates(records, ByMonth, TrendKeys(trends))
    requires forall t | t in trends :: t == TrendOf(RowFor(records, ByMonth, TrendKey(t)))
    requires Tabulates(records, ByCategory, CategoryKeys(breakdown))
    requires forall c | c in breakdown :: c == CategoryOf(RowFor(records, ByCategory, CategoryKey(c)))
    ensures currency in summary && m != RowCount ==>
              TrendSum(trends, currency, m) == SummaryFigure(summary[currency], m)
    ensures currency in summary ==> CategorySum(breakdown, currency, m) == SummaryFigure(summary[currency], m)
    ensures currency in summary ==> summary[currency].net == summary[currency].income - summary[currency].expenses
    ensures forall t | t in trends :: t.net == t.income - t.expense
    ensures currency !in summary ==>
              && (forall t | t in trends :: t.currency != currency)
              && (forall c | c in breakdown :: c.currency != currency)
  {
    FiguresOf(records, ByCurrency, CurrencyKey(currency), m);
    if m != RowCount {
      TrendSumListed(records, trends, currency, m);
      ListAgrees(records, ByMonth, TrendKeys(trends), currency, m);
    }
    CategorySumListed(records, breakdown, currency, m);
    ListAgrees(records, ByCategory, CategoryKeys(breakdown), currency, m);
    OnlySummarised(records, trends, breakdown);
  }

  /** Every line is about a currency of some visible record. */
  lemma OnlySummarised(records: map<Id, Record>, trends: seq<TrendLine>, breakdown: seq<CategoryLine>)
    requires Tabulates(records, ByMonth, TrendKeys(trends)) && Tabulates(records, ByCategory, CategoryKeys(breakdown))
    ensures forall t | t in trends :: CurrencyKey(t.currency) in Groups(records, ByCurrency)
    ensures forall c | c in breakdown :: CurrencyKey(c.currency) in Groups(records, ByCurrency)
  {
    forall t | t in trends ensures CurrencyKey(t.currency) in Groups(records, ByCurrency) {
      var i :| 0 <= i < |trends| && trends[i] == t;
      assert TrendKeys(trends)[i] in Groups(records, ByMonth);
      GroupCurrency(records, ByMonth, TrendKey(t));
    }
    forall c | c in breakdown ensures CurrencyKey(c.currency) in Groups(records, ByCurrency) {
      var i :| 0 <= i < |breakdown| && breakdown[i] == c;
      assert CategoryKeys(breakdown)[i] in Groups(records, ByCategory);
      GroupCurrency(records, ByCategory, CategoryKey(c));
    }
  }

  lemma GroupCurrency(records: map<Id, Record>, axis: Axis, key: Key)
    requires key in Groups(records, axis)
    ensures CurrencyKey(key.currency) in Groups(records, ByCurrency)
  {
    var id :| id in records && !records[id].deleted && KeyOf(records[id], axis) == key;
    assert KeyOf(records[id], ByCurrency) == CurrencyKey(key.currency);
  }

  // ---- computing one row ----

  function Counted(row: Row, r: Record): Row {
    row.(income := row.income + Value(r, IncomeSum), expense := row.expense + Value(r, ExpenseSum),
         total := row.total + Value(r, TotalSum), count := row.count + Value(r, RowCount))
  }

  lemma NoRows(axis: Axis, key: Key)
    ensures RowFor(map[], axis, key) == Row(key, 0, 0, 0, 0)
  {
    SumZero<Id>(Contributions(map[], axis, key, IncomeSum));
    SumZero<Id>(Contributions(map[], axis, key, ExpenseSum));
    SumZero<Id>(Contributions(map[], axis, key, TotalSum));
    SumZero<Id>(Contributions(map[], axis, key, RowCount));
  }

  lemma OneMoreRow(records: map<Id, Record>, id: Id, r: Record, axis: Axis, key: Key)
    requires id !in records
    ensures var before := RowFor(records, axis, key);
            RowFor(records[id := r], axis, key)
            == if !r.deleted && KeyOf(r, axis) == key then Counted(before, r) else before
  {
    AggregateUpdate(records, id, r, axis, key, IncomeSum);
    AggregateUpdate(records, id, r, axis, key, ExpenseSum);
    AggregateUpdate(records, id, r, axis, key, TotalSum);
    AggregateUpdate(records, id, r, axis, key, RowCount);
  }

  /** SUM(CASE ...), SUM(amount) and COUNT(*) of one group. */
  method SumGroup(records: map<Id, Record>, axis: Axis, key: Key) returns (row: Row)
    ensures row == RowFor(records, axis, key)
  {
    var done: map<Id, Record> := map[];
    row := Row(key, 0, 0, 0, 0);
    var pending := records.Keys;
    NoRows(axis, key);
    while pending != {}
      invariant pending <= records.Keys && done == records - pending
      invariant row == RowFor(done, axis, key)
      decreases |pending|
    {
      var id :| id in pending;
      var r := records[id];
      OneMoreRow(done, id, r, axis, key);
      if !r.deleted && KeyOf(r, axis) == key {
        row := Counted(row, r);
      }
      done := done[id := r];
      pending := pending - {id};
    }
    assert done == records;
  }

  /** The result set of the given groups: one row per group, in the requested order. */
  method Query(records: map<Id, Record>, axis: Axis, groups: set<Key>) returns (rows: seq<Row>)
    ensures ResultSet(records, axis, rows, groups)
    decreases |groups|
  {
    if groups == {} {
      return [];
    }
    var key :| key in groups;
    rows := Query(records, axis, groups - {key});
    rows := AddGroup(records, axis, rows, key, groups - {key});
    assert groups - {key} + {key} == groups;
  }

  method AddGroup(records: map<Id, Record>, axis: Axis, rows: seq<Row>, key: Key, ghost done: set<Key>)
    returns (more: seq<Row>)
    requires ResultSet(records, axis, rows, done) && key !in done
    ensures ResultSet(records, axis, more, done + {key})
  {
    var row := SumGroup(records, axis, key);
    more := Insert(axis, rows, row);
    ResultSetGrows(records, axis, rows, more, row, done);
  }

  method Insert(axis: Axis, rows: seq<Row>, row: Row) returns (more: seq<Row>)
    requires Ordered(axis, rows)
    ensures Ordered(axis, more) && |more| == |rows| + 1
    ensures forall r :: r in more <==> r in rows || r == row
  {
    var at := 0;
    while at < |rows| && Rank(axis, rows[at]) <= Rank(axis, row)
      invariant at <= |rows|
      invariant forall i | 0 <= i < at :: Rank(axis, rows[i]) <= Rank(axis, row)
    {
      at := at + 1;
    }
    InsertedOrdered(axis, rows, row, at);
    more := rows[..at] + [row] + rows[at..];
  }

  /** One exact line per currency of the rows so far. */
  ghost predicate Summarises(records: map<Id, Record>, rows: seq<Row>, summary: map<string, SummaryLine>) {
    && (forall c :: c in summary <==> exists r :: r in rows && r.key == CurrencyKey(c))
    && (forall c | c in summary :: summary[c] == SummaryOf(RowFor(records, ByCurrency, CurrencyKey(c))))
  }

  lemma OneMoreLine(records: map<Id, Record>, rows: seq<Row>, summary: map<string, SummaryLine>, r: Row)
    requires Summarises(records, rows, summary) && RowOk(records, ByCurrency, r)
    requires r.key in Groups(records, ByCurrency)
    ensures Summarises(records, rows + [r], summary[r.key.currency := SummaryOf(r)])
  {
    var more := rows + [r];
    assert r in more && r.key == CurrencyKey(r.key.currency);
    forall c
      ensures c in summary[r.key.currency := SummaryOf(r)] <==> exists x :: x in more && x.key == CurrencyKey(c)
    {
      if c in summary {
        var x :| x in rows && x.key == CurrencyKey(c);
        assert x in more;
      }
    }
  }

  class DashboardService {
    const db: Database

    constructor (db: Database)
      ensures this.db == db
    {
      this.db := db;
    }

    /** One line per currency of a visible row; net is income minus expense. */
    method GetSummary() returns (summary: map<string, SummaryLine>)
      ensures forall c :: c in summary <==> CurrencyKey(c) in Groups(db.records, ByCurrency)
      ensures forall c | c in summary :: summary[c] == SummaryOf(RowFor(db.records, ByCurrency, CurrencyKey(c)))
    {
      var results := Query(db.records, ByCurrency, Groups(db.records, ByCurrency));
      summary := map[];
      for i := 0 to |results|
        invariant Summarises(db.records, results[..i], summary)
      {
        var r := results[i];
        assert r in results && results[..i + 1] == results[..i] + [r];
        OneMoreLine(db.records, results[..i], summary, r);
        summary := summary[r.key.currency := SummaryOf(r)];
      }
      assert results[..|results|] == results;
    }

    /** One line per currency and month, oldest month first. */
    method GetTrends() returns (trends: seq<TrendLine>)
      ensures Tabulates(db.records, ByMonth, TrendKeys(trends))
      ensures forall t | t in trends :: t == TrendOf(RowFor(db.records, ByMonth, TrendKey(t)))
    {
      var rows := Query(db.records, ByMonth, Groups(db.records, ByMonth));
      trends := [];
      for i := 0 to |rows|
        invariant |trends| == i && forall j | 0 <= j < i :: trends[j] == TrendOf(rows[j])
      {
        trends := trends + [TrendOf(rows[i])];
      }
      TrendsTabulate(db.records, rows, trends);
    }

    /** One line per currency and category, greatest total first. */
    method GetCategoryBreakdown() returns (breakdown: seq<CategoryLine>)
      ensures Tabulates(db.records, ByCategory, CategoryKeys(breakdown))
      ensures forall c | c in breakdown :: c == CategoryOf(RowFor(db.records, ByCategory, CategoryKey(c)))
    {
      var rows := Query(db.records, ByCategory, Groups(db.records, ByCategory));
      breakdown := [];
      for i := 0 to |rows|
        invariant |breakdown| == i && forall j | 0 <= j < i :: breakdown[j] == CategoryOf(rows[j])
      {
        breakdown := breakdown + [CategoryOf(rows[i])];
      }
      BreakdownTabulates(db.records, rows, breakdown);
    }
  }
}
