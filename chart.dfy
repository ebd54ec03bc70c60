/** The default chart of accounts for a Canadian small business and the
    idempotent seed that installs it. */
module Chart {
  import opened Common
  import opened Records
  import opened Ledger
  import opened Posting
  import opened Books

  /** One row of the default chart: code, name, type, sub-type, T2125 tax
      line, normal balance. */
  datatype SeedRow = SeedRow(
    code: string,
    name: string,
    accountType: string,
    subType: string,
    taxCode: Option<string>,
    normalBalance: string)

  // Assets (1000s).
  const Row1000 := SeedRow("1000", "Cash", "asset", "current_asset", None, "debit")
  const Row1050 := SeedRow("1050", "Business Bank Account", "asset", "current_asset", None, "debit")
  const Row1100 := SeedRow("1100", "Accounts Receivable", "asset", "current_asset", None, "debit")
  const Row1200 := SeedRow("1200", "Prepaid Expenses", "asset", "current_asset", None, "debit")
  const Row1300 := SeedRow("1300", "GST/HST Receivable", "asset", "current_asset", None, "debit")
  const Row1500 := SeedRow("1500", "Computer Equipment", "asset", "fixed_asset", None, "debit")
  const Row1510 := SeedRow("1510", "Office Equipment", "asset", "fixed_asset", None, "debit")
  const Row1520 := SeedRow("1520", "Accum. Depreciation - Equipment", "asset", "fixed_asset", None, "credit")
  const Row1600 := SeedRow("1600", "Vehicles", "asset", "fixed_asset", None, "debit")
  const Row1610 := SeedRow("1610", "Accum. Depreciation - Vehicles", "asset", "fixed_asset", None, "credit")
  const AssetRows: seq<SeedRow> := [Row1000, Row1050, Row1100, Row1200, Row1300, Row1500, Row1510, Row1520, Row1600, Row1610]

  // Liabilities (2000s).
  const Row2000 := SeedRow("2000", "Accounts Payable", "liability", "current_liability", None, "credit")
  const Row2100 := SeedRow("2100", "GST/HST Payable", "liability", "current_liability", None, "credit")
  const Row2200 := SeedRow("2200", "Income Tax Payable", "liability", "current_liability", None, "credit")
  const Row2300 := SeedRow("2300", "Credit Card Payable", "liability", "current_liability", None, "credit")
  const LiabilityRows: seq<SeedRow> := [Row2000, Row2100, Row2200, Row2300]

  // Equity (3000s).
  const Row3000 := SeedRow("3000", "Owner's Equity", "equity", "equity", None, "credit")
  const Row3100 := SeedRow("3100", "Owner's Draws", "equity", "equity", None, "debit")
  const Row3200 := SeedRow("3200", "Retained Earnings", "equity", "equity", None, "credit")
  const EquityRows: seq<SeedRow> := [Row3000, Row3100, Row3200]

  // Revenue (4000s).
  const Row4000 := SeedRow("4000", "Service Revenue", "revenue", "revenue", None, "credit")
  const Row4100 := SeedRow("4100", "Product Sales", "revenue", "revenue", None, "credit")
  const Row4200 := SeedRow("4200", "Other Income", "revenue", "revenue", None, "credit")
  const RevenueRows: seq<SeedRow> := [Row4000, Row4100, Row4200]

  // Expenses (5000s), each mapped to its T2125 line.
  const Row5000 := SeedRow("5000", "Advertising & Marketing", "expense", "expense", Some("8521"), "debit")
  const Row5050 := SeedRow("5050", "Bad Debts", "expense", "expense", Some("8590"), "debit")
  const Row5100 := SeedRow("5100", "Bank Fees & Interest", "expense", "expense", Some("8710"), "debit")
  const Row5150 := SeedRow("5150", "Insurance", "expense", "expense", Some("8690"), "debit")
  const Row5200 := SeedRow("5200", "Meals & Entertainment", "expense", "expense", Some("8523"), "debit")
  const Row5250 := SeedRow("5250", "Office Supplies", "expense", "expense", Some("8810"), "debit")
  const Row5300 := SeedRow("5300", "Professional Fees", "expense", "expense", Some("8860"), "debit")
  const Row5350 := SeedRow("5350", "Rent", "expense", "expense", Some("8910"), "debit")
  const Row5400 := SeedRow("5400", "Repairs & Maintenance", "expense", "expense", Some("8960"), "debit")
  const Row5450 := SeedRow("5450", "Software & Subscriptions", "expense", "expense", Some("8810"), "debit")
  const Row5500 := SeedRow("5500", "Telephone & Internet", "expense", "expense", Some("8220"), "debit")
  const Row5550 := SeedRow("5550", "Travel", "expense", "expense", Some("9200"), "debit")
  const Row5600 := SeedRow("5600", "Utilities", "expense", "expense", Some("9220"), "debit")
  const Row5650 := SeedRow("5650", "Vehicle Expenses", "expense", "expense", Some("9281"), "debit")
  const Row5700 := SeedRow("5700", "Contractor Payments", "expense", "expense", Some("8810"), "debit")
  const Row5750 := SeedRow("5750", "Employee Wages", "expense", "expense", Some("9060"), "debit")
  const Row5800 := SeedRow("5800", "Shipping", "expense", "expense", Some("8810"), "debit")
  const Row5850 := SeedRow("5850", "Taxes & Licenses", "expense", "expense", Some("8760"), "debit")
  const Row5900 := SeedRow("5900", "Depreciation", "expense", "expense", Some("9936"), "debit")
  const Row5950 := SeedRow("5950", "Other Expenses", "expense", "expense", Some("9270"), "debit")
  const Row5960 := SeedRow("5960", "Business-Use-of-Home", "expense", "expense", Some("9945"), "debit")
  const ExpenseRows: seq<SeedRow> := [Row5000, Row5050, Row5100, Row5150, Row5200, Row5250, Row5300, Row5350, Row5400, Row5450, Row5500, Row5550, Row5600, Row5650, Row5700, Row5750, Row5800, Row5850, Row5900, Row5950, Row5960]

  // Cost of goods sold (6000s).
  const Row6000 := SeedRow("6000", "Cost of Goods Sold", "expense", "cogs", None, "debit")
  const Row6100 := SeedRow("6100", "Inventory Purchases", "expense", "cogs", None, "debit")
  const CogsRows: seq<SeedRow> := [Row6000, Row6100]

  /** `DEFAULT_ACCOUNTS`, in table order. */
  const DefaultAccounts: seq<SeedRow> :=
    AssetRows + LiabilityRows + EquityRows + RevenueRows + ExpenseRows + CogsRows

  /** Strict order on four-character codes (lexicographic). */
  predicate CodeBefore(a: string, b: string) {
    && |a| == 4 && |b| == 4
    && (a[0] < b[0] || (a[0] == b[0] &&
         (a[1] < b[1] || (a[1] == b[1] &&
           (a[2] < b[2] || (a[2] == b[2] && a[3] < b[3]))))))
  }

  lemma CodeBeforeTransitive(a: string, b: string, c: string)
    requires CodeBefore(a, b) && CodeBefore(b, c)
    ensures CodeBefore(a, c)
  {
  }

  /** Codes strictly increase from each row to the next, between rows `lo`
      and `hi`. */
  predicate IncreasingBetween(rows: seq<SeedRow>, lo: nat, hi: nat)
    requires hi <= |rows|
  {
    forall i :: lo <= i && i + 1 < hi ==> CodeBefore(rows[i].code, rows[i + 1].code)
  }

  predicate CodesIncreasing(rows: seq<SeedRow>) {
    IncreasingBetween(rows, 0, |rows|)
  }

  lemma AssetRowsIncreasing() ensures CodesIncreasing(AssetRows) {}
  lemma LiabilityRowsIncreasing() ensures CodesIncreasing(LiabilityRows) {}
  lemma EquityRowsIncreasing() ensures CodesIncreasing(EquityRows) {}
  lemma RevenueRowsIncreasing() ensures CodesIncreasing(RevenueRows) {}
  lemma ExpenseRowsLowIncreasing() ensures IncreasingBetween(ExpenseRows, 0, 11) {}
  lemma ExpenseRowsHighIncreasing() ensures IncreasingBetween(ExpenseRows, 10, 21) {}
  lemma CogsRowsIncreasing() ensures CodesIncreasing(CogsRows) {}

  /** `CodeBefore` between neighbours extends to every pair of rows. */
  lemma {:induction false} IncreasingApart(rows: seq<SeedRow>, i: nat, j: nat)
    requires CodesIncreasing(rows) && i < j < |rows|
    ensures CodeBefore(rows[i].code, rows[j].code)
    decreases j - i
  {
    if j > i + 1 {
      IncreasingApart(rows, i, j - 1);
      CodeBeforeTransitive(rows[i].code, rows[j - 1].code, rows[j].code);
    }
  }

  lemma IncreasingConcat(a: seq<SeedRow>, b: seq<SeedRow>)
    requires CodesIncreasing(a) && CodesIncreasing(b)
    requires a != [] && b != [] ==> CodeBefore(a[|a| - 1].code, b[0].code)
    ensures CodesIncreasing(a + b)
  {
    var r := a + b;
    forall i | 0 <= i && i + 1 < |r| ensures CodeBefore(r[i].code, r[i + 1].code) {
      if i + 1 < |a| {
        assert r[i] == a[i] && r[i + 1] == a[i + 1];
      } else if i + 1 == |a| {
        assert r[i] == a[|a| - 1] && r[i + 1] == b[0];
      } else {
        assert r[i] == b[i - |a|] && r[i + 1] == b[i + 1 - |a|];
      }
    }
  }

  /** No two rows share a code. */
  predicate DistinctCodes(rows: seq<SeedRow>) {
    forall i, j :: 0 <= i < j < |rows| ==> rows[i].code != rows[j].code
  }

  /** The codes of `DEFAULT_ACCOUNTS` are pairwise distinct: the table is
      sorted by code, section after section. */
  lemma DefaultCodesDistinct()
    ensures DistinctCodes(DefaultAccounts)
  {
    AssetRowsIncreasing();
    LiabilityRowsIncreasing();
    EquityRowsIncreasing();
    RevenueRowsIncreasing();
    ExpenseRowsLowIncreasing();
    ExpenseRowsHighIncreasing();
    CogsRowsIncreasing();
    var r1 := AssetRows + LiabilityRows;
    IncreasingConcat(AssetRows, LiabilityRows);
    var r2 := r1 + EquityRows;
    IncreasingConcat(r1, EquityRows);
    var r3 := r2 + RevenueRows;
    IncreasingConcat(r2, RevenueRows);
    var r4 := r3 + ExpenseRows;
    IncreasingConcat(r3, ExpenseRows);
    IncreasingConcat(r4, CogsRows);
    forall i, j | 0 <= i < j < |DefaultAccounts|
      ensures DefaultAccounts[i].code != DefaultAccounts[j].code
    {
      IncreasingApart(DefaultAccounts, i, j);
    }
  }

  /** The codes a list of rows would install. */
  function RowCodes(rows: seq<SeedRow>): set<string> {
    set r | r in rows :: r.code
  }

  /** The account a seed row becomes: a system account, active, with no
      parent and no description. */
  function SeedAccount(row: SeedRow, id: nat): Account {
    Account(id, row.code, row.name, row.accountType, Some(row.subType), None, None,
            true, true, row.taxCode, row.normalBalance)
  }

  /** What one row adds: its account under `id`, unless its code was in use
      when the run started. */
  function SeedStep(row: SeedRow, existing: set<string>, id: nat): (r: seq<Account>)
    ensures |r| <= 1
    ensures r != [] <==> row.code !in existing
    ensures r != [] ==> r[0] == SeedAccount(row, id)
  {
    if row.code in existing then [] else [SeedAccount(row, id)]
  }

  /** What `seed_chart_of_accounts` adds: in table order, one account for
      every row whose code was not in use when the run started, with ids
      handed out consecutively from `startId`. */
  function Seeded(rows: seq<SeedRow>, existing: set<string>, startId: nat): (r: seq<Account>)
    ensures |r| <= |rows|
  {
    if rows == [] then []
    else
      var prev := Seeded(rows[..|rows| - 1], existing, startId);
      prev + SeedStep(rows[|rows| - 1], existing, startId + |prev|)
  }

  /** The seeded accounts carry consecutive ids, are system accounts and
      active, and take only codes of the table that were not in use. */
  lemma {:induction false} SeededAccounts(rows: seq<SeedRow>, existing: set<string>, startId: nat)
    ensures var r := Seeded(rows, existing, startId);
            && (forall i :: 0 <= i < |r| ==> r[i].id == startId + i)
            && (forall a :: a in r ==> a.isSystem && a.isActive && a.code !in existing && a.code in RowCodes(rows))
  {
    if rows != [] {
      var prefix := rows[..|rows| - 1];
      SeededAccounts(prefix, existing, startId);
      assert RowCodes(prefix) <= RowCodes(rows);
    }
  }

  /** Every row whose code was free is installed, as its `SeedAccount`. */
  lemma {:induction false} SeededCovers(rows: seq<SeedRow>, existing: set<string>, startId: nat)
    ensures forall row :: row in rows && row.code !in existing ==>
              exists a :: a in Seeded(rows, existing, startId) && a == SeedAccount(row, a.id)
  {
    if rows != [] {
      var prefix := rows[..|rows| - 1];
      var last := rows[|rows| - 1];
      var prev := Seeded(prefix, existing, startId);
      var r := Seeded(rows, existing, startId);
      SeededCovers(prefix, existing, startId);
      forall row | row in rows && row.code !in existing
        ensures exists a :: a in r && a == SeedAccount(row, a.id)
      {
        if row in prefix {
          var a :| a in prev && a == SeedAccount(row, a.id);
          assert a in r;
        } else {
          assert rows == prefix + [last];
          assert row == last;
          var a := SeedAccount(row, startId + |prev|);
          assert r == prev + [a];
          assert a in r;
        }
      }
    }
  }

  /** When every code is already in use, the seed adds nothing. */
  lemma {:induction false} SeededNothingLeft(rows: seq<SeedRow>, existing: set<string>, startId: nat)
    requires RowCodes(rows) <= existing
    ensures Seeded(rows, existing, startId) == []
  {
    if rows != [] {
      var prefix := rows[..|rows| - 1];
      assert RowCodes(prefix) <= RowCodes(rows);
      SeededNothingLeft(prefix, existing, startId);
    }
  }

  /** Idempotence: seeding a chart that was just seeded creates nothing. */
  lemma SeedTwiceCreatesNothing(before: seq<Account>, rows: seq<SeedRow>, startId: nat, againId: nat)
    ensures var first := before + Seeded(rows, CodesOf(before), startId);
            Seeded(rows, CodesOf(first), againId) == []
  {
    var seeded := Seeded(rows, CodesOf(before), startId);
    var first := before + seeded;
    SeededCovers(rows, CodesOf(before), startId);
    forall c | c in RowCodes(rows) ensures c in CodesOf(first) {
      var row :| row in rows && row.code == c;
      if c !in CodesOf(before) {
        var a :| a in seeded && a == SeedAccount(row, a.id);
        assert a in first;
      } else {
        var a :| a in before && a.code == c;
        assert a in first;
      }
    }
    SeededNothingLeft(rows, CodesOf(first), againId);
  }

  /** The code of row `i` is not among those the rows before it installed. */
  lemma NotYetSeeded(rows: seq<SeedRow>, i: nat, existing: set<string>, startId: nat)
    requires DistinctCodes(rows) && i < |rows|
    ensures forall a :: a in Seeded(rows[..i], existing, startId) ==> a.code != rows[i].code
  {
    SeededAccounts(rows[..i], existing, startId);
    forall a | a in Seeded(rows[..i], existing, startId) ensures a.code != rows[i].code {
      var r :| r in rows[..i] && r.code == a.code;
      var j :| 0 <= j < i && rows[..i][j] == r;
      assert rows[j] == r;
    }
  }

  /** One more row: the chart grows by that row's step. */
  lemma SeededStep(before: seq<Account>, current: seq<Account>, next: seq<Account>,
                   rows: seq<SeedRow>, i: nat, existing: set<string>, startId: nat, id: nat)
    requires i < |rows|
    requires current == before + Seeded(rows[..i], existing, startId)
    requires id == startId + |current| - |before|
    requires next == current + SeedStep(rows[i], existing, id)
    ensures next == before + Seeded(rows[..i + 1], existing, startId)
  {
    assert rows[..i + 1][..i] == rows[..i];
  }

  /** One iteration of the seed loop. */
  method SeedOne(b: Books, row: SeedRow, existing: set<string>) returns (added: bool)
    requires b.Valid()
    requires row.code !in existing ==> row.code !in CodesOf(b.accounts)
    modifies b
    ensures b.Valid()
    ensures b.accounts == old(b.accounts) + SeedStep(row, existing, old(b.nextAccountId))
    ensures b.nextAccountId == old(b.nextAccountId) + (if added then 1 else 0)
    ensures added <==> row.code !in existing
    ensures b.entries == old(b.entries) && b.nextEntryId == old(b.nextEntryId)
  {
    added := false;
    if row.code !in existing {
      b.AddAccount(SeedAccount(row, b.nextAccountId));
      added := true;
    }
  }

  /** The seed loop over an arbitrary table with distinct codes. */
  method SeedRows(b: Books, rows: seq<SeedRow>) returns (created: nat)
    requires b.Valid() && DistinctCodes(rows)
    modifies b
    ensures b.Valid()
    ensures b.accounts == old(b.accounts) + Seeded(rows, CodesOf(old(b.accounts)), old(b.nextAccountId))
    ensures created == |b.accounts| - |old(b.accounts)| && b.nextAccountId == old(b.nextAccountId) + created
    ensures b.entries == old(b.entries) && b.nextEntryId == old(b.nextEntryId)
  {
    var existing := CodesOf(b.accounts);
    ghost var before := b.accounts;
    ghost var startId := b.nextAccountId;
    created := 0;
    var i := 0;
    while i < |rows|
      invariant i <= |rows|
      invariant b.Valid()
      invariant b.accounts == before + Seeded(rows[..i], existing, startId)
      invariant created == |b.accounts| - |before| && b.nextAccountId == startId + created
      invariant b.entries == old(b.entries) && b.nextEntryId == old(b.nextEntryId)
    {
      ghost var current := b.accounts;
      ghost var id := b.nextAccountId;
      NotYetSeeded(rows, i, existing, startId);
      assert CodesOf(current) == existing + CodesOf(Seeded(rows[..i], existing, startId));
      var added := SeedOne(b, rows[i], existing);
      if added {
        created := created + 1;
      }
      SeededStep(before, current, b.accounts, rows, i, existing, startId, id);
      i := i + 1;
    }
    assert rows[..i] == rows;
  }

  /** `seed_chart_of_accounts`: the codes in use are read once, then every
      default row whose code was not among them becomes a system account.
      Returns how many accounts were created. */
  method SeedChartOfAccounts(b: Books) returns (created: nat)
    requires b.Valid()
    modifies b
    ensures b.Valid()
    ensures b.accounts == old(b.accounts) + Seeded(DefaultAccounts, CodesOf(old(b.accounts)), old(b.nextAccountId))
    ensures created == |b.accounts| - |old(b.accounts)| && b.nextAccountId == old(b.nextAccountId) + created
    ensures b.entries == old(b.entries) && b.nextEntryId == old(b.nextEntryId)
  {
    DefaultCodesDistinct();
    created := SeedRows(b, DefaultAccounts);
  }

  /** A code the posting rules look up: one the expense or credit resolver
      can return, or one of the fixed codes. */
  ghost predicate PostingCode(code: string) {
    || (exists sub :: ExpenseAccountCode(sub) == code)
    || (exists pm :: CreditAccountCode(pm) == code)
    || code in FixedCodes
  }

  /** The codes the posting rules name directly. */
  const FixedCodes: set<string> :=
    {CashCode, BankCode, ReceivableCode, GstReceivableCode, PayableCode, GstPayableCode, RevenueCode, OtherExpensesCode}

  /** The values of both tables and the fixed codes. */
  ghost const TableCodes: set<string> :=
    Values(CategoryAccountMap) + Values(PaymentCreditAccount) + FixedCodes

  /** What the resolvers return comes from their tables or their fallbacks. */
  lemma PostingCodesFromTables(code: string)
    requires PostingCode(code)
    ensures code in TableCodes
  {
    if exists sub :: ExpenseAccountCode(sub) == code {
      var sub :| ExpenseAccountCode(sub) == code;
    } else if exists pm :: CreditAccountCode(pm) == code {
      var pm :| CreditAccountCode(pm) == code;
    }
  }

  lemma RowCodesSubset(a: seq<SeedRow>, b: seq<SeedRow>)
    requires forall r :: r in a ==> r in b
    ensures RowCodes(a) <= RowCodes(b)
  {
  }

  /** The category table lists the expense codes in the order of the
      expense section of the chart, then the two COGS codes swapped. */
  lemma CategoryCodesFollowExpensesLow()
    ensures forall i :: 0 <= i < 11 ==> CategoryAccountMap[i].1 == ExpenseRows[i].code
  {
  }

  lemma CategoryCodesFollowExpensesHigh()
    ensures forall i :: 11 <= i < 21 ==> CategoryAccountMap[i].1 == ExpenseRows[i].code
  {
  }

  lemma CategoryCodesFollowCogs()
    ensures |CategoryAccountMap| == 23 && |ExpenseRows| == 21 && |CogsRows| == 2
    ensures CategoryAccountMap[21].1 == CogsRows[1].code && CategoryAccountMap[22].1 == CogsRows[0].code
  {
  }

  lemma RowCodesAt(rows: seq<SeedRow>)
    ensures forall i :: 0 <= i < |rows| ==> rows[i].code in RowCodes(rows)
  {
    forall i | 0 <= i < |rows| ensures rows[i].code in RowCodes(rows) {
      assert rows[i] in rows;
    }
  }

  lemma ValuesWithin(table: seq<(string, string)>, codes: set<string>)
    requires forall i :: 0 <= i < |table| ==> table[i].1 in codes
    ensures Values(table) <= codes
  {
    forall v | v in Values(table) ensures v in codes {
      var p :| p in table && p.1 == v;
      var i :| 0 <= i < |table| && table[i] == p;
    }
  }

  lemma CategoryCodesInDefaults()
    ensures Values(CategoryAccountMap) <= RowCodes(DefaultAccounts)
  {
    var table := CategoryAccountMap;
    var codes := RowCodes(DefaultAccounts);
    CategoryCodesFollowExpensesLow();
    CategoryCodesFollowExpensesHigh();
    CategoryCodesFollowCogs();
    RowCodesAt(ExpenseRows);
    RowCodesAt(CogsRows);
    RowCodesSubset(ExpenseRows, DefaultAccounts);
    RowCodesSubset(CogsRows, DefaultAccounts);
    forall i | 0 <= i < |table| ensures table[i].1 in codes {
      if i < 21 {
        assert table[i].1 in RowCodes(ExpenseRows);
      } else {
        assert table[i].1 in RowCodes(CogsRows);
      }
    }
    ValuesWithin(table, codes);
  }

  /** Cash credits 1000, credit cards 2300, everything else the bank account. */
  lemma PaymentCodesAt()
    ensures |PaymentCreditAccount| == 6 && |AssetRows| == 10 && |LiabilityRows| == 4
    ensures PaymentCreditAccount[0].1 == AssetRows[0].code
    ensures PaymentCreditAccount[1].1 == LiabilityRows[3].code
    ensures forall i :: 2 <= i < 6 ==> PaymentCreditAccount[i].1 == AssetRows[1].code
  {
  }

  lemma PaymentCodesInDefaults()
    ensures Values(PaymentCreditAccount) <= RowCodes(DefaultAccounts)
  {
    var table := PaymentCreditAccount;
    var codes := RowCodes(DefaultAccounts);
    PaymentCodesAt();
    RowCodesAt(AssetRows);
    RowCodesAt(LiabilityRows);
    RowCodesSubset(AssetRows, DefaultAccounts);
    RowCodesSubset(LiabilityRows, DefaultAccounts);
    forall i | 0 <= i < |table| ensures table[i].1 in codes {
      if i == 0 {
        assert table[i].1 in RowCodes(AssetRows);
      } else if i == 1 {
        assert table[i].1 in RowCodes(LiabilityRows);
      } else {
        assert table[i].1 == AssetRows[1].code;
      }
    }
    ValuesWithin(table, codes);
  }

  lemma FixedCodesInDefaults()
    ensures FixedCodes <= RowCodes(DefaultAccounts)
  {
    assert Row1000 in AssetRows && Row1050 in AssetRows && Row1100 in AssetRows && Row1300 in AssetRows;
    assert Row2000 in LiabilityRows && Row2100 in LiabilityRows && Row4000 in RevenueRows && Row5950 in ExpenseRows;
    RowCodesSubset(AssetRows, DefaultAccounts);
    RowCodesSubset(LiabilityRows, DefaultAccounts);
    RowCodesSubset(RevenueRows, DefaultAccounts);
    RowCodesSubset(ExpenseRows, DefaultAccounts);
  }

  /** The default chart has an account for every code the posting rules use. */
  lemma PostingCodesInDefaults()
    ensures TableCodes <= RowCodes(DefaultAccounts)
  {
    CategoryCodesInDefaults();
    PaymentCodesInDefaults();
    FixedCodesInDefaults();
  }

  /** After seeding a chart whose accounts are all active, every code of
      `codes` that the table holds resolves to an active account. */
  lemma SeededResolves(before: seq<Account>, rows: seq<SeedRow>, startId: nat, codes: set<string>)
    requires forall a :: a in before ==> a.isActive
    requires codes <= RowCodes(rows)
    ensures var accounts := before + Seeded(rows, CodesOf(before), startId);
            forall code :: code in codes ==> ActiveByCode(accounts, code).Some?
  {
    var seeded := Seeded(rows, CodesOf(before), startId);
    var accounts := before + seeded;
    SeededCovers(rows, CodesOf(before), startId);
    forall code | code in codes ensures ActiveByCode(accounts, code).Some? {
      var row :| row in rows && row.code == code;
      if code in CodesOf(before) {
        var a :| a in before && a.code == code;
        assert a in accounts;
      } else {
        var a :| a in seeded && a == SeedAccount(row, a.id);
        assert a in accounts;
      }
    }
  }

  /** After seeding a chart whose accounts are all active, every account the
      posting rules look up by code resolves. */
  lemma SeededChartResolvesPostingCodes(before: seq<Account>, startId: nat)
    requires forall a :: a in before ==> a.isActive
    ensures var accounts := before + Seeded(DefaultAccounts, CodesOf(before), startId);
            forall code :: PostingCode(code) ==> ActiveByCode(accounts, code).Some?
  {
    PostingCodesInDefaults();
    SeededResolves(before, DefaultAccounts, startId, TableCodes);
    forall code | PostingCode(code) ensures code in TableCodes {
      PostingCodesFromTables(code);
    }
  }

  /** Expense-section rows carry their T2125 line; every other row, COGS
      included, carries none. */
  predicate TaxCodeRule(row: SeedRow) {
    row.taxCode.Some? <==> row.subType == "expense"
  }

  predicate FollowsTaxCodeRule(rows: seq<SeedRow>, lo: nat, hi: nat)
    requires hi <= |rows|
  {
    forall i :: lo <= i < hi ==> TaxCodeRule(rows[i])
  }

  lemma AssetRowsTaxCodes() ensures FollowsTaxCodeRule(AssetRows, 0, |AssetRows|) {}
  lemma LiabilityRowsTaxCodes() ensures FollowsTaxCodeRule(LiabilityRows, 0, |LiabilityRows|) {}
  lemma EquityRowsTaxCodes() ensures FollowsTaxCodeRule(EquityRows, 0, |EquityRows|) {}
  lemma RevenueRowsTaxCodes() ensures FollowsTaxCodeRule(RevenueRows, 0, |RevenueRows|) {}
  lemma ExpenseRowsLowTaxCodes() ensures FollowsTaxCodeRule(ExpenseRows, 0, 11) {}
  lemma ExpenseRowsHighTaxCodes() ensures FollowsTaxCodeRule(ExpenseRows, 11, 21) {}
  lemma CogsRowsTaxCodes() ensures FollowsTaxCodeRule(CogsRows, 0, |CogsRows|) {}

  lemma SectionTaxCodes(rows: seq<SeedRow>)
    requires FollowsTaxCodeRule(rows, 0, |rows|)
    ensures forall r :: r in rows ==> TaxCodeRule(r)
  {
    forall r | r in rows ensures TaxCodeRule(r) {
      var i :| 0 <= i < |rows| && rows[i] == r;
    }
  }

  /** Every row of the default chart follows the tax-code rule. */
  lemma DefaultTaxCodes()
    ensures forall r :: r in DefaultAccounts ==> TaxCodeRule(r)
  {
    AssetRowsTaxCodes();
    LiabilityRowsTaxCodes();
    EquityRowsTaxCodes();
    RevenueRowsTaxCodes();
    ExpenseRowsLowTaxCodes();
    ExpenseRowsHighTaxCodes();
    CogsRowsTaxCodes();
    SectionTaxCodes(AssetRows);
    SectionTaxCodes(LiabilityRows);
    SectionTaxCodes(EquityRows);
    SectionTaxCodes(RevenueRows);
    SectionTaxCodes(ExpenseRows);
    SectionTaxCodes(CogsRows);
  }
}
