/** The period report (`generate_report_text`): picks the period's first day,
    reads the period's rows and the all-time balance from the store, sums
    inflow and outflow and per-category outflow in one pass, ranks the
    categories by subtotal, and assembles the report's lines. Lines are kept
    as structured values; their text rendering is not part of the model. */
module Report {
  import opened Wrappers
  import opened Calendar
  import opened Sorting
  import opened Ledger

  /** One entry of the insertion-ordered `kategori_totals` dictionary. */
  datatype CategoryTotal = CategoryTotal(name: string, amount: int)

  /** Sort key of the category ranking. */
  function Amount(c: CategoryTotal): int { c.amount }

  /** What the report's title shows: the day, the Monday-to-Sunday span (as day
      ordinals), or the month. */
  datatype Title =
    | DailyTitle(day: CivilDate)
    | WeeklyTitle(start: int, end: int)
    | MonthlyTitle(year: int, month: int)

  datatype ReportLine =
    | InvalidPeriodLine
    | TitleLine(title: Title)
    | NoTransactionsLine
    | InflowLine(amount: int)
    | OutflowLine(amount: int)
    | BalanceLine(amount: int)
    | CategoryHeaderLine
    | CategoryLine(name: string, amount: int)

  /** The title for a period keyword, or None for an unknown keyword. The
      week's end is six days after its start and only labels the title. */
  function ReportTitle(period: string, today: CivilDate): (r: Option<Title>)
    ensures r.Some? <==> IsPeriod(period)
    ensures period == Weekly ==> r.value.WeeklyTitle? && r.value.end == r.value.start + 6
  {
    if period == Daily then Some(DailyTitle(today))
    else if period == Weekly then
      var start := PeriodStart(Weekly, today).value;
      Some(WeeklyTitle(start, start + 6))
    else if period == Monthly then
      var first := FirstOfMonth(today);
      Some(MonthlyTitle(first.year, first.month))
    else None
  }

  /** Python truthiness of a nullable string: present and non-empty. */
  predicate Truthy(k: Option<string>) {
    k.Some? && k.value != ""
  }

  /** A row that enters the category breakdown: an outflow with a truthy category. */
  predicate Categorised(t: Transaction) {
    t.jenis == Keluar && Truthy(t.kategori)
  }

  function Names(ts: seq<CategoryTotal>): (r: seq<string>)
    ensures |r| == |ts|
  {
    if ts == [] then [] else [ts[0].name] + Names(ts[1..])
  }

  predicate DistinctNames(ts: seq<CategoryTotal>) {
    var ns := Names(ts);
    forall i, j :: 0 <= i < j < |ns| ==> ns[i] != ns[j]
  }

  /** The amount a defaultdict read gives for `name`: its entry's amount, or 0. */
  function Lookup(ts: seq<CategoryTotal>, name: string): int {
    if ts == [] then 0
    else if ts[0].name == name then ts[0].amount
    else Lookup(ts[1..], name)
  }

  function AmountSum(ts: seq<CategoryTotal>): int {
    if ts == [] then 0 else ts[0].amount + AmountSum(ts[1..])
  }

  /** `kategori_totals[name] += amt`: an existing key is updated where it
      stands, a new key is appended with 0 + amt. */
  function Accumulate(ts: seq<CategoryTotal>, name: string, amt: int): (r: seq<CategoryTotal>)
    ensures Names(r) == if name in Names(ts) then Names(ts) else Names(ts) + [name]
    ensures AmountSum(r) == AmountSum(ts) + amt
  {
    if ts == [] then [CategoryTotal(name, amt)]
    else if ts[0].name == name then
      var r := [CategoryTotal(name, ts[0].amount + amt)] + ts[1..];
      assert r[1..] == ts[1..];
      r
    else
      var r := [ts[0]] + Accumulate(ts[1..], name, amt);
      assert r[1..] == Accumulate(ts[1..], name, amt);
      assert Names(ts) == [ts[0].name] + Names(ts[1..]);
      r
  }

  /** The category dictionary after the loop has seen `txs` (left to right). */
  function CategoryTotals(txs: seq<Transaction>): seq<CategoryTotal> {
    if txs == [] then []
    else
      var n := |txs| - 1;
      var t := txs[n];
      if Categorised(t) then Accumulate(CategoryTotals(txs[..n]), t.kategori.value, t.amaun)
      else CategoryTotals(txs[..n])
  }

  /** Outflow recorded under category `c` (only truthy categories count). */
  function Outflow(txs: seq<Transaction>, c: string): int {
    if txs == [] then 0
    else
      var n := |txs| - 1;
      var t := txs[n];
      Outflow(txs[..n], c) + (if Categorised(t) && t.kategori.value == c then t.amaun else 0)
  }

  /** Outflow with no category, or an empty one. */
  function Uncategorised(txs: seq<Transaction>): int {
    if txs == [] then 0
    else
      var n := |txs| - 1;
      var t := txs[n];
      Uncategorised(txs[..n]) + (if t.jenis == Keluar && !Truthy(t.kategori) then t.amaun else 0)
  }

  /** The distinct truthy categories of the outflow rows of `txs`, in the
      order each first occurs. */
  function FirstSeen(txs: seq<Transaction>): seq<string> {
    if txs == [] then []
    else
      var n := |txs| - 1;
      var t := txs[n];
      var prev := FirstSeen(txs[..n]);
      if Categorised(t) && t.kategori.value !in prev then prev + [t.kategori.value] else prev
  }

  // ---- Properties of the category breakdown ----

  /** Updating a key changes that key's amount by `amt` and no other key's. */
  lemma {:induction false} AccumulateLookup(ts: seq<CategoryTotal>, name: string, amt: int, c: string)
    ensures Lookup(Accumulate(ts, name, amt), c) == Lookup(ts, c) + (if c == name then amt else 0)
  {
    if ts != [] && ts[0].name != name {
      AccumulateLookup(ts[1..], name, amt, c);
      var r := Accumulate(ts, name, amt);
      assert r[1..] == Accumulate(ts[1..], name, amt);
    } else if ts != [] {
      var r := Accumulate(ts, name, amt);
      assert r[1..] == ts[1..];
    }
  }

  /** Each category appears once in the dictionary. */
  lemma {:induction false} CategoryNamesDistinct(txs: seq<Transaction>)
    ensures DistinctNames(CategoryTotals(txs))
  {
    if txs != [] {
      var n := |txs| - 1;
      CategoryNamesDistinct(txs[..n]);
    }
  }

  /** A name is a key of the dictionary exactly when some outflow row carries
      it as a non-empty category: inflows and uncategorised rows add no key. */
  lemma {:induction false} CategoryNamesIff(txs: seq<Transaction>, c: string)
    ensures c in Names(CategoryTotals(txs)) <==>
      exists t :: t in txs && t.jenis == Keluar && t.kategori == Some(c) && c != ""
  {
    if txs != [] {
      var n := |txs| - 1;
      assert txs == txs[..n] + [txs[n]];
      CategoryNamesIff(txs[..n], c);
    }
  }

  /** Every category's subtotal is the outflow recorded under it. */
  lemma {:induction false} CategorySubtotal(txs: seq<Transaction>, c: string)
    ensures Lookup(CategoryTotals(txs), c) == Outflow(txs, c)
  {
    if txs != [] {
      var n := |txs| - 1;
      var t := txs[n];
      CategorySubtotal(txs[..n], c);
      if Categorised(t) {
        AccumulateLookup(CategoryTotals(txs[..n]), t.kategori.value, t.amaun, c);
      }
    }
  }

  /** The subtotals add up to the outflow total less the uncategorised outflow. */
  lemma {:induction false} CategorySumIsCategorisedOutflow(txs: seq<Transaction>)
    ensures AmountSum(CategoryTotals(txs)) == Total(txs, Keluar) - Uncategorised(txs)
  {
    if txs != [] {
      var n := |txs| - 1;
      CategorySumIsCategorisedOutflow(txs[..n]);
    }
  }

  /** The dictionary keeps its categories in the order they are first seen. */
  lemma {:induction false} CategoryOrderIsFirstSeen(txs: seq<Transaction>)
    ensures Names(CategoryTotals(txs)) == FirstSeen(txs)
  {
    if txs != [] {
      CategoryOrderIsFirstSeen(txs[..|txs| - 1]);
    }
  }

  /** The ranking is a permutation of the subtotals, in non-increasing order,
      with equal subtotals kept in the order their categories were first seen. */
  lemma CategoryRanking(txs: seq<Transaction>, v: int)
    ensures var ranked := SortDesc(CategoryTotals(txs), Amount);
      && multiset(ranked) == multiset(CategoryTotals(txs))
      && Descending(ranked, Amount)
      && WithKey(ranked, Amount, v) == WithKey(CategoryTotals(txs), Amount, v)
  {
    SortDescStable(CategoryTotals(txs), Amount, v);
  }

  /** A month with an inflow of 100.00 on day 1 and outflows of 30.00 (food)
      on day 2, 20.00 (food) on day 5 and 10.00 (transport) on day 6 (amounts
      in sen), listed newest first as the period query returns them. */
  function ExampleMonth(): seq<Transaction> {
    [Transaction(4, 7, Keluar, 1000, Some("transport"), None, 6 * MicrosecondsPerDay),
     Transaction(3, 7, Keluar, 2000, Some("food"), None, 5 * MicrosecondsPerDay),
     Transaction(2, 7, Keluar, 3000, Some("food"), None, 2 * MicrosecondsPerDay),
     Transaction(1, 7, Masuk, 10000, None, None, 1 * MicrosecondsPerDay)]
  }

  /** The example's totals: 100.00 in, 60.00 out, balance 40.00. */
  lemma ExampleMonthTotals()
    ensures Total(ExampleMonth(), Masuk) == 10000
    ensures Total(ExampleMonth(), Keluar) == 6000
    ensures Balance(ExampleMonth(), 7) == 4000
  {
    var t4 := Transaction(4, 7, Keluar, 1000, Some("transport"), None, 6 * MicrosecondsPerDay);
    var t3 := Transaction(3, 7, Keluar, 2000, Some("food"), None, 5 * MicrosecondsPerDay);
    var t2 := Transaction(2, 7, Keluar, 3000, Some("food"), None, 2 * MicrosecondsPerDay);
    var t1 := Transaction(1, 7, Masuk, 10000, None, None, 1 * MicrosecondsPerDay);
    var txs := ExampleMonth();
    assert txs == [t4, t3, t2, t1];
    assert txs[..3] == [t4, t3, t2];
    assert [t4, t3, t2][..2] == [t4, t3];
    assert [t4, t3][..1] == [t4];
    assert [t4][..0] == [];
    assert Owned([t4], 7) == [t4];
    assert Owned([t4, t3], 7) == [t4, t3];
    assert Owned([t4, t3, t2], 7) == [t4, t3, t2];
    assert Owned(txs, 7) == txs;
    assert Total([], Masuk) == 0 && Total([], Keluar) == 0;
    assert Total([t4], Keluar) == 1000 && Total([t4], Masuk) == 0;
    assert Total([t4, t3], Keluar) == 3000 && Total([t4, t3], Masuk) == 0;
    assert Total([t4, t3, t2], Keluar) == 6000 && Total([t4, t3, t2], Masuk) == 0;
  }

  /** The example's breakdown: transport is seen first, yet food (50.00)
      ranks above transport (10.00). */
  lemma ExampleMonthCategories()
    ensures CategoryTotals(ExampleMonth()) == [CategoryTotal("transport", 1000), CategoryTotal("food", 5000)]
    ensures SortDesc(CategoryTotals(ExampleMonth()), Amount)
         == [CategoryTotal("food", 5000), CategoryTotal("transport", 1000)]
  {
    var t4 := Transaction(4, 7, Keluar, 1000, Some("transport"), None, 6 * MicrosecondsPerDay);
    var t3 := Transaction(3, 7, Keluar, 2000, Some("food"), None, 5 * MicrosecondsPerDay);
    var t2 := Transaction(2, 7, Keluar, 3000, Some("food"), None, 2 * MicrosecondsPerDay);
    var t1 := Transaction(1, 7, Masuk, 10000, None, None, 1 * MicrosecondsPerDay);
    var txs := ExampleMonth();
    assert txs == [t4, t3, t2, t1];
    assert txs[..3] == [t4, t3, t2];
    assert [t4, t3, t2][..2] == [t4, t3];
    assert [t4, t3][..1] == [t4];
    assert [t4][..0] == [];
    var food, food2, transport := CategoryTotal("food", 5000), CategoryTotal("food", 2000), CategoryTotal("transport", 1000);
    assert [transport][1..] == [] && [food2][1..] == [] && [transport, food2][1..] == [food2];
    assert CategoryTotals([t4]) == [transport];
    assert Accumulate([transport], "food", 2000) == [transport, food2];
    assert CategoryTotals([t4, t3]) == [transport, food2];
    assert Accumulate([food2], "food", 3000) == [food];
    assert Accumulate([transport, food2], "food", 3000) == [transport, food];
    assert CategoryTotals([t4, t3, t2]) == [transport, food];
    assert CategoryTotals(txs) == [transport, food];
    assert [transport, food][1..] == [food] && [food][1..] == [];
    assert SortDesc([food], Amount) == [food];
    assert SortDesc([transport, food], Amount) == InsertDesc(transport, [food], Amount);
  }

  /** The week in the title runs from a Monday to the following Sunday and contains today. */
  lemma WeeklyTitleSpan(today: CivilDate)
    ensures var t := ReportTitle(Weekly, today).value;
      && Weekday(t.start) == 0 && Weekday(t.end) == 6
      && t.start <= Ordinal(today) <= t.end
  {
    MondayOfWeek(Ordinal(today));
    var s := Ordinal(today) - Weekday(Ordinal(today));
    assert (s + 6 + 6) % 7 == ((s + 6) % 7 + 6) % 7;
  }

  /** Summing all of a user's rows the way the report sums a period gives the
      balance the store reports: inflow minus outflow, whatever the row order. */
  lemma AllTimeTotalsMatchBalance(store: Store, userId: int)
    ensures var all := store.GetAllTransactionsByUser(userId);
      Total(all, Masuk) - Total(all, Keluar) == store.GetBalance(userId)
  {
    var all := store.GetAllTransactionsByUser(userId);
    var owned := Owned(store.transactions, userId);
    TotalPermutation(all, owned, Masuk);
    TotalPermutation(all, owned, Keluar);
    BalanceIsNet(store.transactions, userId);
  }

  /** The accumulation loop of `generate_report_text`: one pass over the
      period's rows adding inflows to `totalMasuk`, outflows to `totalKeluar`,
      and outflows with a truthy category to that category's subtotal. */
  method Tally(transactions: seq<Transaction>)
    returns (totalMasuk: int, totalKeluar: int, kategoriTotals: seq<CategoryTotal>)
    ensures totalMasuk == Total(transactions, Masuk)
    ensures totalKeluar == Total(transactions, Keluar)
    ensures kategoriTotals == CategoryTotals(transactions)
  {
    totalMasuk, totalKeluar := 0, 0;
    kategoriTotals := [];
    for i := 0 to |transactions|
      invariant totalMasuk == Total(transactions[..i], Masuk)
      invariant totalKeluar == Total(transactions[..i], Keluar)
      invariant kategoriTotals == CategoryTotals(transactions[..i])
    {
      var t := transactions[i];
      assert transactions[..i + 1][..i] == transactions[..i];
      if t.jenis == Masuk {
        totalMasuk := totalMasuk + t.amaun;
      } else if t.jenis == Keluar {
        totalKeluar := totalKeluar + t.amaun;
        if Truthy(t.kategori) {
          kategoriTotals := Accumulate(kategoriTotals, t.kategori.value, t.amaun);
        }
      }
    }
    assert transactions[..|transactions|] == transactions;
  }

  /** The closing loop of `generate_report_text`: one line per ranked
      category, appended in ranking order after the lines already built. */
  method AppendCategoryLines(lines: seq<ReportLine>, ranked: seq<CategoryTotal>)
    returns (out: seq<ReportLine>)
    ensures |out| == |lines| + |ranked|
    ensures out[..|lines|] == lines
    ensures forall k :: 0 <= k < |ranked| ==> out[|lines| + k] == CategoryLine(ranked[k].name, ranked[k].amount)
  {
    out := lines;
    for k := 0 to |ranked|
      invariant |out| == |lines| + k
      invariant out[..|lines|] == lines
      invariant forall j :: 0 <= j < k ==> out[|lines| + j] == CategoryLine(ranked[j].name, ranked[j].amount)
    {
      out := out + [CategoryLine(ranked[k].name, ranked[k].amount)];
    }
  }

  /** The lines of a report over the period rows `txs`: the title, the
      period's inflow and outflow totals, the given balance, then, when some
      outflow has a category, a header and one line per category from the
      largest subtotal down. */
  ghost predicate SummaryLines(lines: seq<ReportLine>, title: Title, txs: seq<Transaction>, balance: int) {
    var cats := SortDesc(CategoryTotals(txs), Amount);
    && |lines| == 4 + (if cats == [] then 0 else 1 + |cats|)
    && lines[0] == TitleLine(title)
    && lines[1] == InflowLine(Total(txs, Masuk))
    && lines[2] == OutflowLine(Total(txs, Keluar))
    && lines[3] == BalanceLine(balance)
    && (cats != [] ==> lines[4] == CategoryHeaderLine)
    && (forall k :: 0 <= k < |cats| ==> lines[5 + k] == CategoryLine(cats[k].name, cats[k].amount))
  }

  /** The non-empty branch of `generate_report_text`: tally the period's
      rows, then build the title, total and balance lines and the ranked
      category lines. */
  method Summarise(title: Title, transactions: seq<Transaction>, balance: int)
    returns (lines: seq<ReportLine>)
    ensures SummaryLines(lines, title, transactions, balance)
  {
    var totalMasuk, totalKeluar, kategoriTotals := Tally(transactions);

    var head := [TitleLine(title), InflowLine(totalMasuk), OutflowLine(totalKeluar), BalanceLine(balance)];
    lines := head;
    if kategoriTotals != [] {
      lines := lines + [CategoryHeaderLine];
      var ranked := SortDesc(kategoriTotals, Amount);
      lines := AppendCategoryLines(lines, ranked);
      assert lines[..5][..4] == head;
    }
  }

  /** `generate_report_text`. An unknown keyword gives the invalid-period
      message. A period without rows gives the title and the "no transactions"
      line. Otherwise: the title, the period's inflow and outflow totals, the
      user's all-time balance, and, when some outflow has a category, a header
      and one line per category from the largest subtotal down. */
  method GenerateReport(store: Store, userId: int, period: string, today: CivilDate)
    returns (lines: seq<ReportLine>)
    ensures !IsPeriod(period) ==> lines == [InvalidPeriodLine]
    ensures IsPeriod(period) && store.GetTransactions(userId, period, today) == [] ==>
      lines == [TitleLine(ReportTitle(period, today).value), NoTransactionsLine]
    ensures IsPeriod(period) && store.GetTransactions(userId, period, today) != [] ==>
      SummaryLines(lines, ReportTitle(period, today).value, store.GetTransactions(userId, period, today),
                   store.GetBalance(userId))
  {
    var title := ReportTitle(period, today);
    if title.None? {
      return [InvalidPeriodLine];
    }
    var transactions := store.GetTransactions(userId, period, today);
    var balance := store.GetBalance(userId);
    if transactions == [] {
      return [TitleLine(title.value), NoTransactionsLine];
    }

    lines := Summarise(title.value, transactions, balance);
  }
}
