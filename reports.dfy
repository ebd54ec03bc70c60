/** Financial reports over the categorised transactions: profit and loss,
    expenses by category, the yearly tax summary, the monthly summary and
    the dashboard figures. Amounts are in cents. */
module Reports {
  import opened Common
  import opened Records
  import opened Ordering
  import opened Totals

  // ---- Selections (the queries' date filters) ----

  /** Both ends of the period are whole days, so the range is inclusive. */
  predicate InPeriod(t: Transaction, start: Date, end: Date) {
    DateLe(start, t.date) && DateLe(t.date, end)
  }

  function InPeriodOf(ts: seq<Transaction>, start: Date, end: Date): (r: seq<Transaction>)
    ensures forall t :: t in r <==> t in ts && InPeriod(t, start, end)
  {
    if ts == [] then []
    else
      var t := ts[|ts| - 1];
      assert forall x :: x in ts <==> x in ts[..|ts| - 1] || x == t;
      InPeriodOf(ts[..|ts| - 1], start, end) + (if InPeriod(t, start, end) then [t] else [])
  }

  /** From January 1 to December 31 of `year`. */
  function InYearOf(ts: seq<Transaction>, year: int): (r: seq<Transaction>)
    ensures forall t :: t in r <==> t in ts && t.date.year == year
  {
    if ts == [] then []
    else
      var t := ts[|ts| - 1];
      assert forall x :: x in ts <==> x in ts[..|ts| - 1] || x == t;
      InYearOf(ts[..|ts| - 1], year) + (if t.date.year == year then [t] else [])
  }

  // ---- Sums ----

  /** Sum of the amounts of the transactions of one category. */
  function CategoryTotal(ts: seq<Transaction>, category: string): int {
    if ts == [] then 0
    else
      var t := ts[|ts| - 1];
      CategoryTotal(ts[..|ts| - 1], category) + (if t.category == category then t.amount else 0)
  }

  /** Sum of the (truthy) tax amounts of the transactions of one category. */
  function TaxTotal(ts: seq<Transaction>, category: string): int {
    if ts == [] then 0
    else
      var t := ts[|ts| - 1];
      TaxTotal(ts[..|ts| - 1], category) + (if t.category == category && Truthy(t.taxAmount) then t.taxAmount.value else 0)
  }

  /** Sum of the expenses that are (or are not) tax deductible. */
  function DeductibleTotal(ts: seq<Transaction>, deductible: bool): int {
    if ts == [] then 0
    else
      var t := ts[|ts| - 1];
      DeductibleTotal(ts[..|ts| - 1], deductible)
        + (if t.category == "expense" && t.taxDeductible == deductible then t.amount else 0)
  }

  /** Deductible and non-deductible expenses make up all expenses. */
  lemma {:induction false} DeductiblePartition(ts: seq<Transaction>)
    ensures DeductibleTotal(ts, true) + DeductibleTotal(ts, false) == CategoryTotal(ts, "expense")
  {
    if ts != [] {
      DeductiblePartition(ts[..|ts| - 1]);
    }
  }

  // ---- Buckets (a `defaultdict` / `GROUP BY` in first-seen key order) ----

  datatype Bucket<K> = Bucket(key: K, total: int, count: nat)

  function Get<K(==)>(buckets: seq<Bucket<K>>, key: K): (r: int)
    ensures (forall b :: b in buckets ==> b.key != key) ==> r == 0
  {
    if buckets == [] then 0
    else if buckets[0].key == key then buckets[0].total
    else Get(buckets[1..], key)
  }

  /** No key has two buckets. */
  predicate KeysDistinct<K(==)>(buckets: seq<Bucket<K>>) {
    buckets == [] || ((forall c :: c in buckets[1..] ==> c.key != buckets[0].key) && KeysDistinct(buckets[1..]))
  }

  /** Adds `amount` to the bucket of `key`, opening it at the end when absent. */
  function Add<K(==)>(buckets: seq<Bucket<K>>, key: K, amount: int): (r: seq<Bucket<K>>)
    ensures |r| == |buckets| || r == buckets + [Bucket(key, amount, 1)]
  {
    if buckets == [] then [Bucket(key, amount, 1)]
    else if buckets[0].key == key then [buckets[0].(total := buckets[0].total + amount, count := buckets[0].count + 1)] + buckets[1..]
    else [buckets[0]] + Add(buckets[1..], key, amount)
  }

  function BucketsTotal<K>(buckets: seq<Bucket<K>>): int {
    if buckets == [] then 0 else buckets[0].total + BucketsTotal(buckets[1..])
  }

  function BucketsCount<K>(buckets: seq<Bucket<K>>): nat {
    if buckets == [] then 0 else buckets[0].count + BucketsCount(buckets[1..])
  }

  /** Adding to a bucket raises that key's total by the amount and leaves
      other keys alone. */
  lemma {:induction false} AddGet<K>(buckets: seq<Bucket<K>>, key: K, amount: int, k: K)
    ensures Get(Add(buckets, key, amount), k) == Get(buckets, k) + (if k == key then amount else 0)
  {
    if buckets != [] && buckets[0].key != key {
      AddGet(buckets[1..], key, amount, k);
    }
  }

  /** Adding to a bucket raises the grand total by the amount and counts one
      more row. */
  lemma {:induction false} AddTotals<K>(buckets: seq<Bucket<K>>, key: K, amount: int)
    ensures BucketsTotal(Add(buckets, key, amount)) == BucketsTotal(buckets) + amount
    ensures BucketsCount(Add(buckets, key, amount)) == BucketsCount(buckets) + 1
  {
    if buckets != [] && buckets[0].key != key {
      AddTotals(buckets[1..], key, amount);
      assert Add(buckets, key, amount)[1..] == Add(buckets[1..], key, amount);
    } else if buckets != [] {
      assert Add(buckets, key, amount)[1..] == buckets[1..];
    }
  }

  /** Adding opens no bucket other than `key`'s. */
  lemma {:induction false} AddKeys<K>(buckets: seq<Bucket<K>>, key: K, amount: int)
    ensures forall b :: b in Add(buckets, key, amount) ==> b.key == key || exists c :: c in buckets && c.key == b.key
  {
    if buckets != [] && buckets[0].key != key {
      AddKeys(buckets[1..], key, amount);
      assert Add(buckets, key, amount) == [buckets[0]] + Add(buckets[1..], key, amount);
      assert forall c :: c in buckets[1..] ==> c in buckets;
    } else if buckets != [] {
      assert forall b :: b in buckets[1..] ==> b in buckets;
    }
  }

  /** Adding keeps every key in one bucket. */
  lemma {:induction false} AddDistinct<K>(buckets: seq<Bucket<K>>, key: K, amount: int)
    requires KeysDistinct(buckets)
    ensures KeysDistinct(Add(buckets, key, amount))
  {
    if buckets == [] {
      assert Add(buckets, key, amount)[1..] == [];
    } else if buckets[0].key != key {
      var rest := buckets[1..];
      AddDistinct(rest, key, amount);
      AddKeys(rest, key, amount);
      var r := Add(buckets, key, amount);
      assert r[0] == buckets[0] && r[1..] == Add(rest, key, amount);
    } else {
      var r := Add(buckets, key, amount);
      assert r[1..] == buckets[1..];
    }
  }

  // ---- Profit and loss ----

  /** The `by_category` key of an expense: its subcategory, or "Other". */
  function ExpenseKey(t: Transaction): string {
    if t.subcategory.Some? && t.subcategory.value != "" then t.subcategory.value else "Other"
  }

  /** The expense buckets the profit-and-loss loop fills. */
  function ExpenseBuckets(ts: seq<Transaction>): seq<Bucket<string>> {
    if ts == [] then []
    else
      var t := ts[|ts| - 1];
      var rest := ExpenseBuckets(ts[..|ts| - 1]);
      if t.category == "expense" then Add(rest, ExpenseKey(t), t.amount) else rest
  }

  /** The expense total of one `by_category` key. */
  function KeyTotal(ts: seq<Transaction>, key: string): int {
    if ts == [] then 0
    else
      var t := ts[|ts| - 1];
      KeyTotal(ts[..|ts| - 1], key) + (if t.category == "expense" && ExpenseKey(t) == key then t.amount else 0)
  }

  /** Each category lists once, shows the sum of its expenses, and the
      categories add up to the total expenses. */
  lemma {:induction false} ExpenseBucketsSpec(ts: seq<Transaction>)
    ensures KeysDistinct(ExpenseBuckets(ts))
    ensures forall k :: Get(ExpenseBuckets(ts), k) == KeyTotal(ts, k)
    ensures BucketsTotal(ExpenseBuckets(ts)) == CategoryTotal(ts, "expense")
  {
    if ts != [] {
      var t := ts[|ts| - 1];
      ExpenseBucketsSpec(ts[..|ts| - 1]);
      if t.category == "expense" {
        AddDistinct(ExpenseBuckets(ts[..|ts| - 1]), ExpenseKey(t), t.amount);
        AddTotals(ExpenseBuckets(ts[..|ts| - 1]), ExpenseKey(t), t.amount);
        forall k ensures Get(ExpenseBuckets(ts), k) == KeyTotal(ts, k) {
          AddGet(ExpenseBuckets(ts[..|ts| - 1]), ExpenseKey(t), t.amount, k);
        }
      }
    }
  }

  /** `round(x * 100 / whole, 2)` in hundredths of a percent, or 0 when the
      whole is not positive. */
  function Percent(part: int, whole: int): (r: int)
    ensures whole > 0 ==> (r as real) - 0.5 <= (part as real) / (whole as real) * 10000.0 < (r as real) + 0.5
    ensures whole <= 0 ==> r == 0
  {
    if whole > 0 then RoundCents((part as real) / (whole as real) * 100.0) else 0
  }

  datatype ProfitLoss = ProfitLoss(
    revenue: int,
    byCategory: seq<Bucket<string>>,
    totalExpenses: int,
    totalTaxPaid: int,
    netIncome: int,
    profitMargin: int)

  /** `profit_and_loss` over the transactions dated within the period. */
  method ProfitAndLoss(ts: seq<Transaction>, start: Date, end: Date) returns (r: ProfitLoss)
    ensures var sel := InPeriodOf(ts, start, end);
      && r.revenue == CategoryTotal(sel, "revenue")
      && r.totalExpenses == CategoryTotal(sel, "expense")
      && r.byCategory == ExpenseBuckets(sel)
      && r.totalTaxPaid == TaxTotal(sel, "expense")
      && r.netIncome == r.revenue - r.totalExpenses
      && r.profitMargin == Percent(r.netIncome, r.revenue)
  {
    var sel := InPeriodOf(ts, start, end);
    var revenue, totalExpenses, totalTaxPaid := 0, 0, 0;
    var byCategory: seq<Bucket<string>> := [];
    for i := 0 to |sel|
      invariant revenue == CategoryTotal(sel[..i], "revenue")
      invariant totalExpenses == CategoryTotal(sel[..i], "expense")
      invariant totalTaxPaid == TaxTotal(sel[..i], "expense")
      invariant byCategory == ExpenseBuckets(sel[..i])
    {
      assert sel[..i + 1][..i] == sel[..i];
      var t := sel[i];
      if t.category == "revenue" {
        revenue := revenue + t.amount;
      } else if t.category == "expense" {
        byCategory := Add(byCategory, ExpenseKey(t), t.amount);
        totalExpenses := totalExpenses + t.amount;
        if Truthy(t.taxAmount) {
          totalTaxPaid := totalTaxPaid + t.taxAmount.value;
        }
      }
    }
    assert sel[..|sel|] == sel;
    var net := revenue - totalExpenses;
    r := ProfitLoss(revenue, byCategory, totalExpenses, totalTaxPaid, net, Percent(net, revenue));
  }

  // ---- Expenses by category ----

  /** The SQL `GROUP BY subcategory` of the expenses, in first-seen order. */
  function SubcategoryGroups(ts: seq<Transaction>): seq<Bucket<Option<string>>> {
    if ts == [] then []
    else
      var t := ts[|ts| - 1];
      var rest := SubcategoryGroups(ts[..|ts| - 1]);
      if t.category == "expense" then Add(rest, t.subcategory, t.amount) else rest
  }

  function ExpenseCount(ts: seq<Transaction>): nat {
    if ts == [] then 0
    else ExpenseCount(ts[..|ts| - 1]) + (if ts[|ts| - 1].category == "expense" then 1 else 0)
  }

  /** The groups hold every expense exactly once: their totals add up to
      the expense total and their counts to the number of expenses. */
  lemma {:induction false} SubcategoryGroupsSpec(ts: seq<Transaction>)
    ensures KeysDistinct(SubcategoryGroups(ts))
    ensures BucketsTotal(SubcategoryGroups(ts)) == CategoryTotal(ts, "expense")
    ensures BucketsCount(SubcategoryGroups(ts)) == ExpenseCount(ts)
  {
    if ts != [] {
      var t := ts[|ts| - 1];
      SubcategoryGroupsSpec(ts[..|ts| - 1]);
      if t.category == "expense" {
        AddDistinct(SubcategoryGroups(ts[..|ts| - 1]), t.subcategory, t.amount);
        AddTotals(SubcategoryGroups(ts[..|ts| - 1]), t.subcategory, t.amount);
      }
    }
  }

  datatype CategoryRow = CategoryRow(category: string, total: int, count: nat, percentage: int)

  /** The row of one group, its name "Uncategorized" when the subcategory is
      missing or empty. */
  function RowOf(g: Bucket<Option<string>>): CategoryRow {
    CategoryRow(if g.key.Some? && g.key.value != "" then g.key.value else "Uncategorized", g.total, g.count, 0)
  }

  function RowsTotal(rows: seq<CategoryRow>): int {
    if rows == [] then 0 else rows[0].total + RowsTotal(rows[1..])
  }

  function RowsOf(groups: seq<Bucket<Option<string>>>): (r: seq<CategoryRow>)
    ensures |r| == |groups| && forall i :: 0 <= i < |groups| ==> r[i] == RowOf(groups[i])
    ensures RowsTotal(r) == BucketsTotal(groups)
  {
    if groups == [] then [] else [RowOf(groups[0])] + RowsOf(groups[1..])
  }

  /** Larger totals first. */
  function ByTotalDesc(a: CategoryRow, b: CategoryRow): bool {
    a.total >= b.total
  }

  lemma ByTotalDescIsPreorder()
    ensures TotalPreorder(ByTotalDesc)
  {
  }

  datatype CategoryReport = CategoryReport(categories: seq<CategoryRow>, total: int)

  /** The rows with their share of `total` filled in. */
  function WithPercentages(rows: seq<CategoryRow>, total: int): (r: seq<CategoryRow>)
    ensures |r| == |rows|
    ensures forall i :: 0 <= i < |rows| ==> r[i] == rows[i].(percentage := Percent(rows[i].total, total))
  {
    seq(|rows|, i requires 0 <= i < |rows| => rows[i].(percentage := Percent(rows[i].total, total)))
  }

  /** `expenses_by_category` over the expenses dated within the period. */
  method ExpensesByCategory(ts: seq<Transaction>, start: Date, end: Date) returns (r: CategoryReport)
    ensures var rows := RowsOf(SubcategoryGroups(InPeriodOf(ts, start, end)));
      && r.total == RowsTotal(rows)
      && r.categories == SortBy(WithPercentages(rows, r.total), ByTotalDesc)
  {
    var categories := RowsOf(SubcategoryGroups(InPeriodOf(ts, start, end)));
    var total := RowsTotal(categories);
    ghost var rows := categories;
    for i := 0 to |categories|
      invariant |categories| == |rows|
      invariant forall j :: 0 <= j < i ==> categories[j] == WithPercentages(rows, total)[j]
      invariant forall j :: i <= j < |rows| ==> categories[j] == rows[j]
    {
      categories := categories[i := categories[i].(percentage := Percent(categories[i].total, total))];
    }
    assert categories == WithPercentages(rows, total);
    r := CategoryReport(SortBy(categories, ByTotalDesc), total);
  }

  /** The report lists every group once, largest first; the total is the
      period's expense total and the counts cover every expense; every
      percentage is 0 when that total is not positive. */
  lemma ExpensesByCategorySpec(ts: seq<Transaction>, start: Date, end: Date, r: CategoryReport)
    requires var rows := RowsOf(SubcategoryGroups(InPeriodOf(ts, start, end)));
      && r.total == RowsTotal(rows)
      && r.categories == SortBy(WithPercentages(rows, r.total), ByTotalDesc)
    ensures var sel := InPeriodOf(ts, start, end);
      && r.total == CategoryTotal(sel, "expense")
      && |r.categories| == |SubcategoryGroups(sel)|
      && SortedBy(r.categories, ByTotalDesc)
      && multiset(r.categories) == multiset(WithPercentages(RowsOf(SubcategoryGroups(sel)), r.total))
      && (r.total <= 0 ==> forall c :: c in r.categories ==> c.percentage == 0)
  {
    var sel := InPeriodOf(ts, start, end);
    var withPct := WithPercentages(RowsOf(SubcategoryGroups(sel)), r.total);
    SubcategoryGroupsSpec(sel);
    ByTotalDescIsPreorder();
    SortBySorted(withPct, ByTotalDesc);
    if r.total <= 0 {
      forall c | c in r.categories ensures c.percentage == 0 {
        assert c in multiset(withPct);
        var i :| 0 <= i < |withPct| && withPct[i] == c;
      }
    }
  }

  // ---- Tax summary ----

  datatype TaxSummary = TaxSummary(
    revenue: int,
    deductible: int,
    nonDeductible: int,
    expensesTotal: int,
    collected: int,
    paid: int,
    netOwing: int,
    taxableIncome: int)

  /** `tax_summary` over the transactions of `year`. */
  method TaxSummaryOf(ts: seq<Transaction>, year: int) returns (r: TaxSummary)
    ensures var sel := InYearOf(ts, year);
      && r.revenue == CategoryTotal(sel, "revenue")
      && r.deductible == DeductibleTotal(sel, true)
      && r.nonDeductible == DeductibleTotal(sel, false)
      && r.collected == TaxTotal(sel, "revenue")
      && r.paid == TaxTotal(sel, "expense")
      && r.expensesTotal == r.deductible + r.nonDeductible
      && r.netOwing == r.collected - r.paid
      && r.taxableIncome == r.revenue - r.deductible
  {
    var sel := InYearOf(ts, year);
    var collected, paid, revenue, deductible, nonDeductible := 0, 0, 0, 0, 0;
    for i := 0 to |sel|
      invariant revenue == CategoryTotal(sel[..i], "revenue")
      invariant deductible == DeductibleTotal(sel[..i], true)
      invariant nonDeductible == DeductibleTotal(sel[..i], false)
      invariant collected == TaxTotal(sel[..i], "revenue")
      invariant paid == TaxTotal(sel[..i], "expense")
    {
      assert sel[..i + 1][..i] == sel[..i];
      var t := sel[i];
      if t.category == "revenue" {
        revenue := revenue + t.amount;
        if Truthy(t.taxAmount) {
          collected := collected + t.taxAmount.value;
        }
      } else if t.category == "expense" {
        if t.taxDeductible {
          deductible := deductible + t.amount;
        } else {
          nonDeductible := nonDeductible + t.amount;
        }
        if Truthy(t.taxAmount) {
          paid := paid + t.taxAmount.value;
        }
      }
    }
    assert sel[..|sel|] == sel;
    r := TaxSummary(revenue, deductible, nonDeductible, deductible + nonDeductible, collected, paid,
                    collected - paid, revenue - deductible);
  }

  /** The expense total of the summary is the year's whole expense total. */
  lemma TaxSummaryCoversExpenses(ts: seq<Transaction>, year: int, r: TaxSummary)
    requires r.expensesTotal == DeductibleTotal(InYearOf(ts, year), true) + DeductibleTotal(InYearOf(ts, year), false)
    ensures r.expensesTotal == CategoryTotal(InYearOf(ts, year), "expense")
  {
    DeductiblePartition(InYearOf(ts, year));
  }

  // ---- Monthly summary ----

  const MonthNames: seq<string> := ["January", "February", "March", "April", "May", "June", "July",
                                    "August", "September", "October", "November", "December"]

  /** Sum of one category's amounts in month `month`. */
  function MonthTotal(ts: seq<Transaction>, category: string, month: int): int {
    if ts == [] then 0
    else
      var t := ts[|ts| - 1];
      MonthTotal(ts[..|ts| - 1], category, month) + (if t.category == category && t.date.month == month then t.amount else 0)
  }

  /** Sum of `MonthTotal` over months 1..n. */
  function UpToMonth(ts: seq<Transaction>, category: string, n: nat): int {
    if n == 0 then 0 else UpToMonth(ts, category, n - 1) + MonthTotal(ts, category, n)
  }

  /** Each transaction lands in exactly one of the twelve months, so the
      months add up to the category total. */
  lemma {:induction false} MonthsCoverYear(ts: seq<Transaction>, category: string)
    ensures UpToMonth(ts, category, 12) == CategoryTotal(ts, category)
  {
    if ts == [] {
      MonthsOfNothing(category, 12);
    } else {
      var prefix := ts[..|ts| - 1];
      var t := ts[|ts| - 1];
      assert ts == prefix + [t];
      MonthsCoverYear(prefix, category);
      MonthsStep(prefix, t, ts, category, 12);
      assert 1 <= t.date.month <= 12;
    }
  }

  lemma {:induction false} MonthsOfNothing(category: string, n: nat)
    ensures UpToMonth([], category, n) == 0
  {
    if n > 0 {
      MonthsOfNothing(category, n - 1);
    }
  }

  lemma {:induction false} MonthsStep(prefix: seq<Transaction>, t: Transaction, ts: seq<Transaction>, category: string, n: nat)
    requires ts == prefix + [t]
    ensures UpToMonth(ts, category, n) == UpToMonth(prefix, category, n)
      + (if t.category == category && 1 <= t.date.month <= n then t.amount else 0)
  {
    assert ts[..|ts| - 1] == prefix;
    if n > 0 {
      MonthsStep(prefix, t, ts, category, n - 1);
    }
  }

  datatype MonthRow = MonthRow(month: int, monthName: string, revenue: int, expenses: int, netIncome: int)

  datatype MonthlySummary = MonthlySummary(months: seq<MonthRow>, revenue: int, expenses: int, netIncome: int)

  function RowsRevenue(rows: seq<MonthRow>): int {
    if rows == [] then 0 else RowsRevenue(rows[..|rows| - 1]) + rows[|rows| - 1].revenue
  }

  function RowsExpenses(rows: seq<MonthRow>): int {
    if rows == [] then 0 else RowsExpenses(rows[..|rows| - 1]) + rows[|rows| - 1].expenses
  }

  /** The `monthly_data` loop: revenue and expenses per month, month m at
      index m - 1. */
  method MonthlyBuckets(sel: seq<Transaction>) returns (revenue: array<int>, expenses: array<int>)
    ensures fresh(revenue) && fresh(expenses) && revenue.Length == 12 && expenses.Length == 12
    ensures forall m :: 0 <= m < 12 ==> revenue[m] == MonthTotal(sel, "revenue", m + 1)
    ensures forall m :: 0 <= m < 12 ==> expenses[m] == MonthTotal(sel, "expense", m + 1)
  {
    revenue := new int[12](_ => 0);
    expenses := new int[12](_ => 0);
    for i := 0 to |sel|
      invariant forall m :: 0 <= m < 12 ==> revenue[m] == MonthTotal(sel[..i], "revenue", m + 1)
      invariant forall m :: 0 <= m < 12 ==> expenses[m] == MonthTotal(sel[..i], "expense", m + 1)
    {
      assert sel[..i + 1][..i] == sel[..i];
      var t := sel[i];
      var m := t.date.month - 1;
      if t.category == "revenue" {
        revenue[m] := revenue[m] + t.amount;
      } else if t.category == "expense" {
        expenses[m] := expenses[m] + t.amount;
      }
    }
    assert sel[..|sel|] == sel;
  }

  /** `monthly_summary`: months 1..12 in order, each with its own sums, and
      the year's totals. */
  method MonthlySummaryOf(ts: seq<Transaction>, year: int) returns (r: MonthlySummary)
    ensures var sel := InYearOf(ts, year);
      && |r.months| == 12
      && (forall i :: 0 <= i < 12 ==>
            var m := r.months[i];
            && m.month == i + 1 && m.monthName == MonthNames[i]
            && m.revenue == MonthTotal(sel, "revenue", i + 1)
            && m.expenses == MonthTotal(sel, "expense", i + 1)
            && m.netIncome == m.revenue - m.expenses)
      && r.revenue == RowsRevenue(r.months) && r.expenses == RowsExpenses(r.months)
      && r.netIncome == r.revenue - r.expenses
  {
    var sel := InYearOf(ts, year);
    var revenue, expenses := MonthlyBuckets(sel);
    var months: seq<MonthRow> := [];
    var totalRevenue, totalExpenses := 0, 0;
    for m := 0 to 12
      invariant |months| == m
      invariant forall i :: 0 <= i < m ==> months[i] == MonthRow(i + 1, MonthNames[i], revenue[i], expenses[i], revenue[i] - expenses[i])
      invariant totalRevenue == RowsRevenue(months) && totalExpenses == RowsExpenses(months)
    {
      var row := MonthRow(m + 1, MonthNames[m], revenue[m], expenses[m], revenue[m] - expenses[m]);
      assert (months + [row])[..m] == months;
      months := months + [row];
      totalRevenue := totalRevenue + row.revenue;
      totalExpenses := totalExpenses + row.expenses;
    }
    r := MonthlySummary(months, totalRevenue, totalExpenses, totalRevenue - totalExpenses);
  }

  /** Rows whose sums are the months' sums add up to the year's totals. */
  lemma {:induction false} MonthRowsTotal(ts: seq<Transaction>, rows: seq<MonthRow>)
    requires |rows| <= 12
    requires forall i :: 0 <= i < |rows| ==>
      rows[i].revenue == MonthTotal(ts, "revenue", i + 1) && rows[i].expenses == MonthTotal(ts, "expense", i + 1)
    ensures RowsRevenue(rows) == UpToMonth(ts, "revenue", |rows|)
    ensures RowsExpenses(rows) == UpToMonth(ts, "expense", |rows|)
  {
    if rows != [] {
      MonthRowsTotal(ts, rows[..|rows| - 1]);
    }
  }

  /** The yearly totals of the monthly summary are the year's revenue and
      expense totals. */
  lemma MonthlyTotalsAreYearTotals(ts: seq<Transaction>, year: int, r: MonthlySummary)
    requires var sel := InYearOf(ts, year);
      && |r.months| == 12
      && (forall i :: 0 <= i < 12 ==>
            r.months[i].revenue == MonthTotal(sel, "revenue", i + 1)
            && r.months[i].expenses == MonthTotal(sel, "expense", i + 1))
      && r.revenue == RowsRevenue(r.months) && r.expenses == RowsExpenses(r.months)
    ensures r.revenue == CategoryTotal(InYearOf(ts, year), "revenue")
    ensures r.expenses == CategoryTotal(InYearOf(ts, year), "expense")
  {
    var sel := InYearOf(ts, year);
    MonthRowsTotal(sel, r.months);
    MonthsCoverYear(sel, "revenue");
    MonthsCoverYear(sel, "expense");
  }

  // ---- Dashboard ----

  datatype Dashboard = Dashboard(
    totalDocuments: nat,
    pendingReview: nat,
    monthRevenue: int,
    monthExpenses: int,
    monthNetIncome: int,
    recentUploads: seq<Document>)

  function PendingCount(docs: seq<Document>): nat {
    if docs == [] then 0
    else PendingCount(docs[..|docs| - 1]) + (if docs[|docs| - 1].processingStatus == "review_needed" then 1 else 0)
  }

  /** The transactions dated on or after the first of `today`'s month. */
  function SinceMonthStart(ts: seq<Transaction>, today: Date): (r: seq<Transaction>)
    ensures forall t :: t in r <==> t in ts && DateLe(CalendarDay(today.year, today.month, 1), t.date)
  {
    if ts == [] then []
    else
      var t := ts[|ts| - 1];
      assert forall x :: x in ts <==> x in ts[..|ts| - 1] || x == t;
      SinceMonthStart(ts[..|ts| - 1], today) + (if DateLe(CalendarDay(today.year, today.month, 1), t.date) then [t] else [])
  }

  const RecentUploads := 5

  /** `dashboard_stats` on day `today`, the documents in upload order. */
  function DashboardStats(docs: seq<Document>, ts: seq<Transaction>, today: Date): (r: Dashboard)
    ensures r.totalDocuments == |docs| && r.pendingReview <= |docs|
    ensures r.monthNetIncome == r.monthRevenue - r.monthExpenses
    ensures |r.recentUploads| == if |docs| < RecentUploads then |docs| else RecentUploads
    ensures forall i :: 0 <= i < |r.recentUploads| ==> r.recentUploads[i] == docs[|docs| - 1 - i]
  {
    var month := SinceMonthStart(ts, today);
    var revenue := CategoryTotal(month, "revenue");
    var expenses := CategoryTotal(month, "expense");
    PendingAtMost(docs);
    Dashboard(|docs|, PendingCount(docs), revenue, expenses, revenue - expenses, Page(Reversed(docs), 0, RecentUploads))
  }

  lemma {:induction false} PendingAtMost(docs: seq<Document>)
    ensures PendingCount(docs) <= |docs|
  {
    if docs != [] {
      PendingAtMost(docs[..|docs| - 1]);
    }
  }
}
