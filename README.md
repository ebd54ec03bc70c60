# AI Accountant — the double-entry core, modelled in Dafny

This project models the bookkeeping core of the AI Accountant backend, a
FastAPI service that keeps the books of a Canadian small business. It
covers the following parts:

- **Journal.** The double-entry journal keeps a chart of accounts and
  journal entries made of debit and credit lines. Posting rules turn a cash
  transaction, a sent or paid invoice, a received bill, a bill payment or a
  manual entry into lines. An entry is stored, marked posted, only when its
  debits equal its credits.
- **Chart of accounts.** The default chart is seeded idempotently. Accounts
  can be created, updated and deleted (soft or hard), and each has a
  signed balance and a general-ledger view.
- **Manual journal entries.** Each line is validated, only `manual` entries
  can be deleted, and listings are filtered and returned newest first.
- **Bills and invoices.** Totals, numbering, status guards and payments are
  modelled. A received bill and each bill payment are posted to the journal.
- **Reports.** These cover profit and loss, expenses by category, the tax
  summary, the monthly summary and the dashboard figures.
- **Bank statements.** CSV parsing handles TD, RBC, Scotiabank and BMO
  layouts plus a generic fallback. Imports are de-duplicated by row hash
  and recompute the account balance. Transactions can be reconciled.
- **Login rate limiter.** It allows five failures per client address in a
  sliding five-minute window.
- **Document uploads.** This covers file-name sanitising, upload checks and
  the processing and review status of a document.

Money is whole cents (`int`). The `< 0.01` balance tolerance of the source
is therefore exact equality of debit and credit totals. Each database table
the source updates is a `seq` field of a store class, with a next-id
counter. Each endpoint is one method that either commits its whole effect
or leaves the store unchanged. `HTTPException` and `ValueError` become
`Err(...)` results, and `None` returns become `Option`. Rows that the
source orders by `created_at` are in storage order, which is id order.

The modules follow the repository:

- `Ledger`, `Posting` and `Books` model `services/journal_service.py`.
- `Chart` models `services/coa_seed.py`.
- `AccountsApi`, `JournalApi`, `BillsApi`, `InvoicesApi`, `Reports`,
  `BankAccountsApi`, `Auth` and `Documents` model the API modules of the
  same names.
- `BankImport` models `services/bank_import.py`.
- `Totals` and `Numbering` hold the `_calc_totals` and
  `_next_*_number` logic that bills and invoices share.
- `Records` gives the record shapes of `models/`.
- `Common`, `Text` and `Ordering` hold the shared vocabulary: results,
  dates, string helpers, and `ORDER BY`/`OFFSET`/`LIMIT` as sort and page
  functions.

## Model

| member | source | states |
|---|---|---|
| Ledger.ExpenseAccountCode | backend/app/services/journal_service.py:59-63 | a known subcategory resolves to its mapped code; a missing or unknown one to "5950"; the result is always 5950 or a table value |
| Ledger.CreditAccountCode | backend/app/services/journal_service.py:66-70 | a known payment method resolves to its mapped code; a missing or unknown one to "1050" (bank) |
| Ledger.EmptyIsBalanced | backend/app/services/journal_service.py:73-77 | the balance check accepts the empty line list, whose totals are both zero |
| Ledger.ConcatBalanced | backend/app/services/journal_service.py:73-77 | appending a balanced group of lines leaves the verdict of the balance check unchanged |
| Ledger.ActiveByCode | backend/app/services/journal_service.py:55-56 | the lookup returns an active account with that code, and returns none exactly when no active account has it |
| Ledger.AccountById | backend/app/api/accounts.py:152-154 | the lookup returns the account with that id, and none exactly when no account has it |
| Ledger.LedgerBalances | backend/app/services/journal_service.py:141-152 | when every stored entry balances, the whole journal's debits equal its credits |
| Ledger.AppendKeepsLedgerInvariant | backend/app/services/journal_service.py:141-164 | storing a posted, non-empty, balanced entry with the next id keeps the journal invariant (ids increasing, all posted and balanced) |
| Ledger.Unlinked | backend/app/services/journal_service.py:169-175 | the entries kept are exactly those not linked to the transaction |
| Ledger.UnlinkedKeepsLedgerInvariant | backend/app/services/journal_service.py:169-175 | removing a transaction's entries keeps the journal invariant |
| Ledger.RemoveAtKeepsLedgerInvariant | backend/app/api/journal_entries.py:163-165 | deleting one entry keeps the journal invariant |
| Posting.TransactionLinesExist | backend/app/services/journal_service.py:89-139 | lines are built exactly for an expense whose expense and payment accounts are active, or a revenue with 4000 and 1050 active; other categories post nothing |
| Posting.ExpenseLinesShape | backend/app/services/journal_service.py:94-115 | an expense gives Dr expense abs(amount), then Dr 1300 tax when tax > 0 and 1300 is active, then Cr payment account abs(amount)+tax |
| Posting.RevenueLinesShape | backend/app/services/journal_service.py:117-136 | a revenue gives Dr 1050 abs(amount)+tax, Cr 4000 abs(amount), then Cr 2100 tax when tax > 0 and 2100 is active |
| Posting.TransactionBalancedIff | backend/app/services/journal_service.py:104-143 | a transaction's lines balance exactly when it has no tax or the GST account its rule needs is active |
| Posting.ExpenseTotals | backend/app/services/journal_service.py:94-115 | the debit and credit totals of an expense posting, with and without the GST line |
| Posting.RevenueTotals | backend/app/services/journal_service.py:117-136 | the debit and credit totals of a revenue posting, with and without the GST line |
| Posting.TransactionEntry | backend/app/services/journal_service.py:145-152 | the entry is posted, linked to the transaction, holds the lines and is typed auto_expense or auto_revenue |
| Posting.InvoiceSentBalancedIff | backend/app/services/journal_service.py:190-204 | invoice-sent lines debit the total and credit subtotal plus posted GST; they balance exactly when total = subtotal + posted GST |
| Posting.InvoiceSentEntry | backend/app/services/journal_service.py:206-213 | the entry is posted, linked to the invoice and typed auto_invoice |
| Posting.InvoicePaymentAmount | backend/app/services/journal_service.py:237 | the paid amount is the given amount when it is non-zero, otherwise the invoice total (`amount or total`) |
| Posting.InvoicePaidLines | backend/app/services/journal_service.py:237-247 | Dr 1050 / Cr 1100 for the payment amount, always balanced; lines exist exactly when both accounts are active |
| Posting.InvoicePaidEntry | backend/app/services/journal_service.py:249-256 | the entry is posted, linked to the invoice and typed auto_payment |
| Posting.ItemExpenseAccount | backend/app/services/journal_service.py:349-362 | precedence item account, then the bill's account, then active 5950; a truthy id that names no account also falls back to 5950; no account only when 5950 is missing too |
| Posting.ItemLines | backend/app/services/journal_service.py:349-369 | one debit line per item for the item's amount, in item order, each naming a chart account |
| Posting.ItemLinesDebit | backend/app/services/journal_service.py:349-369 | the item debits sum to the items' total and credit nothing |
| Posting.BillReceivedBalancedIff | backend/app/services/journal_service.py:349-408 | bill-received lines debit the expense amount plus posted GST and credit AP with the total; they balance exactly when those agree |
| Posting.BillReceivedEntry | backend/app/services/journal_service.py:410-417 | the entry is posted, linked to the bill and typed auto_bill |
| Posting.BillPaymentLines | backend/app/services/journal_service.py:441-450 | Dr 2000 / Cr 1050 for the payment amount, always balanced; lines exist exactly when both accounts are active |
| Posting.BillPaymentEntry | backend/app/services/journal_service.py:452-459 | the entry is posted, linked to the bill and typed auto_bill_payment |
| Posting.ManualEntry | backend/app/services/journal_service.py:285-291 | a manual entry is posted, typed manual and linked to no transaction, invoice or bill |
| Books.IndexById | backend/app/api/accounts.py:152-154 | the index found holds the account with that id; none exactly when no account has it |
| Books.EntryIndex | backend/app/api/journal_entries.py:157-159 | the index found holds the entry with that id; none exactly when no entry has it |
| Books.MigrationStep | backend/app/services/journal_service.py:320-325 | one transaction adds at most one entry: exactly when it is not yet linked and its posting succeeds |
| Books.MigratedCovers | backend/app/services/journal_service.py:312-325 | after the backfill every transaction is linked already, cannot post, or is linked by a new entry |
| Books.MigratedNothingLeft | backend/app/services/journal_service.py:320-322 | when every transaction is linked or cannot post, the backfill adds nothing |
| Books.MigrateTwiceCreatesNothing | backend/app/services/journal_service.py:309-330 | running the backfill a second time on unchanged data creates no entry |
| Books.BuildItemDebits | backend/app/services/journal_service.py:349-369 | the item loop returns exactly the specified item debit lines, or none when an item has no account |
| Books.BuildBillReceivedLines | backend/app/services/journal_service.py:341-404 | the bill-received line builder returns exactly the specified lines |
| Books.Books.CreateJeForTransaction | backend/app/services/journal_service.py:82-166 | stores the transaction's entry with the next id exactly when its lines exist and balance; otherwise returns None and changes nothing |
| Books.Books.DeleteJeForTransaction | backend/app/services/journal_service.py:169-175 | removes exactly the entries linked to the transaction and returns how many went |
| Books.Books.CreateJeForInvoiceSent | backend/app/services/journal_service.py:180-226 | stores the invoice entry exactly when its lines exist and balance; otherwise changes nothing |
| Books.Books.CreateJeForInvoicePaid | backend/app/services/journal_service.py:229-269 | stores the payment entry, dated by the payment date or today, exactly when 1050 and 1100 are active |
| Books.Books.CreateManualJournalEntry | backend/app/services/journal_service.py:274-304 | an unbalanced list fails first, an empty one second; otherwise a manual entry is stored |
| Books.Books.MigrateExistingTransactions | backend/app/services/journal_service.py:309-330 | appends the backfill's entries for unlinked transactions and returns their number |
| Books.Books.CreateJeForBillReceived | backend/app/services/journal_service.py:335-430 | stores the bill entry exactly when its lines exist and balance; otherwise returns None and changes nothing |
| Books.Books.CreateJeForBillPayment | backend/app/services/journal_service.py:433-472 | stores the payment entry exactly when 2000 and 1050 are active |
| Chart.DefaultCodesDistinct | backend/app/services/coa_seed.py:6-61 | the codes of the default chart are pairwise distinct |
| Chart.SeedStep | backend/app/services/coa_seed.py:70-84 | one row adds one account exactly when its code is not yet in use |
| Chart.SeededAccounts | backend/app/services/coa_seed.py:73-82 | every seeded account is a system account, active, with a code from the table that was not in use, and ids are consecutive |
| Chart.SeededCovers | backend/app/services/coa_seed.py:67-84 | every row whose code was not in use is seeded with its own fields |
| Chart.SeededNothingLeft | backend/app/services/coa_seed.py:70-72 | when every code is in use the seed adds nothing |
| Chart.SeedTwiceCreatesNothing | backend/app/services/coa_seed.py:64-89 | seeding a second time adds nothing, so it returns 0 and leaves the chart unchanged |
| Chart.SeedChartOfAccounts | backend/app/services/coa_seed.py:64-89 | appends the default rows whose codes are not in use and returns how many it added |
| Chart.PostingCodesInDefaults | backend/app/services/coa_seed.py:6-61 | every code the posting rules look up (both tables and 1050, 1100, 1300, 2000, 2100, 4000, 5950) is in the default chart |
| Chart.SeededChartResolvesPostingCodes | backend/app/services/journal_service.py:55-70 | after seeding a chart of active accounts, every posting code resolves to an active account |
| Chart.DefaultTaxCodes | backend/app/services/coa_seed.py:8-60 | expense rows carry a tax code; asset, liability, equity, revenue and COGS rows carry none |
| AccountsApi.BalanceWithoutPostedLines | backend/app/api/accounts.py:41-50 | an account with no posted lines has balance 0 |
| AccountsApi.BalanceAfterEntry | backend/app/api/accounts.py:39-57 | a new entry changes a balance by the account's debits minus credits (negated for credit-normal accounts), and an unposted one changes nothing |
| AccountsApi.TrialBalance | backend/app/api/accounts.py:39-57 | over a valid book, debits and credits summed over the chart's accounts are equal |
| AccountsApi.LedgerRowsMatchBalance | backend/app/api/accounts.py:212-217 | the ledger view's rows sum to the same debits and credits as the balance |
| AccountsApi.GetAccountLedgerSpec | backend/app/api/accounts.py:200-220 | 404 for an unknown account; otherwise the account's posted lines, newest first, paged at most 200, with its balance and total count |
| AccountsApi.Filtered | backend/app/api/accounts.py:87-91 | exactly the accounts of the requested type (when given) and active (when asked) |
| AccountsApi.ListedAccountsSpec | backend/app/api/accounts.py:87-93 | the listing is those accounts ordered by code |
| AccountsApi.ListAccounts | backend/app/api/accounts.py:95-100 | one view per listed account, with its balance exactly when balances are requested |
| AccountsApi.GetAccount | backend/app/api/accounts.py:104-112 | 404 exactly for an unknown id; otherwise the account with its balance |
| AccountsApi.DefaultNormalBalanceSpec | backend/app/api/accounts.py:26 | a given normal balance is kept; a null or empty one becomes credit exactly for liability, equity and revenue accounts |
| AccountsApi.CreateCheck | backend/app/api/accounts.py:115-128 | creation passes exactly for a valid type, an unused code and an existing parent; each failure gives its own error, in source order, the invalid-type detail listing the valid types |
| AccountsApi.CreateAccount | backend/app/api/accounts.py:115-146 | stores a new active, non-system account with the next id when the checks pass; otherwise changes nothing |
| AccountsApi.CreatedAccountResolves | backend/app/api/accounts.py:130-141 | the new account is found by id and code and has balance 0 |
| AccountsApi.PatchedSpec | backend/app/api/accounts.py:156-165 | only name, description, sub-type, tax code and active flag change, and only when given; id, code, type and normal balance never change |
| AccountsApi.UpdateAccount | backend/app/api/accounts.py:150-168 | 404 for an unknown id; otherwise the account is replaced by its patched version |
| AccountsApi.UpdateKeepsBalances | backend/app/api/accounts.py:156-165 | an update changes no account's balance |
| AccountsApi.DeleteAccount | backend/app/api/accounts.py:172-190 | 404 for unknown, 400 for system accounts; an account with lines is deactivated, any other one removed |
| AccountsApi.DeleteOutcome | backend/app/api/accounts.py:180-190 | after a delete the code no longer resolves for posting and every balance is unchanged |
| JournalApi.CheckedLinesOk | backend/app/api/journal_entries.py:127-140 | the lines pass exactly when every line passes, and then they are the requested lines in order |
| JournalApi.CheckedLinesErr | backend/app/api/journal_entries.py:127-134 | a rejection is the error of the first failing line |
| JournalApi.AcceptedLineOneSided | backend/app/api/journal_entries.py:131-134 | an accepted line has exactly one of debit and credit positive |
| JournalApi.CheckLines | backend/app/api/journal_entries.py:125-140 | the validation loop returns exactly the specified result |
| JournalApi.CreateJournalEntry | backend/app/api/journal_entries.py:123-151 | schema errors, then the first bad line, then an unbalanced set are rejected with nothing written; otherwise one manual entry is stored |
| JournalApi.DeleteJournalEntry | backend/app/api/journal_entries.py:155-165 | 404 for unknown; a non-manual entry is refused with nothing changed; a manual entry is removed |
| JournalApi.DeleteKeepsOthers | backend/app/api/journal_entries.py:163-165 | after a delete the journal holds exactly the other entries |
| JournalApi.StoredViewBalances | backend/app/api/journal_entries.py:38-40 | the serialised totals of every stored entry are equal |
| JournalApi.GetJournalEntry | backend/app/api/journal_entries.py:109-119 | 404 exactly for an unknown id; otherwise that entry |
| JournalApi.Selected | backend/app/api/journal_entries.py:89-96 | exactly the entries in the date range, of the type and touching the account, each filter applied only when given |
| JournalApi.ListJournalEntries | backend/app/api/journal_entries.py:98-105 | the reported total is the number of matching entries |
| JournalApi.ListJournalEntriesSpec | backend/app/api/journal_entries.py:100 | the page is the distinct matching entries ordered by date then id descending, skipped and capped at 100 (paging over joined rows is admitted under Left out) |
| JournalApi.ListedEntriesMatch | backend/app/api/journal_entries.py:89-100 | every listed entry is stored and matches the filters |
| Totals.RoundCents | backend/app/api/bills.py:92 | the result is within half a cent of the real amount |
| Totals.GstOf | backend/app/api/bills.py:93 | the GST is within half a cent of subtotal × rate |
| Totals.CalcTotalsSpec | backend/app/api/bills.py:90-95 | subtotal is the sum of item amounts; rate is 5% with GST and 0 without; total = subtotal + GST; all non-negative for non-negative items |
| Numbering.NextNumberSpec | backend/app/api/bills.py:79-87 | PREFIX-1001 for the first number, PREFIX-(n+1) after PREFIX-n, PREFIX-1001 after an unreadable number |
| BillsApi.ItemsTotalIsSum | backend/app/api/bills.py:197-205 | the stored items' amounts sum to the subtotal's sum |
| BillsApi.ConsistentBillBalances | backend/app/api/bills.py:90-95 | a bill built by `_calc_totals` posts a balanced entry exactly when it has no GST or 1300 is active |
| BillsApi.MissingItemAccount | backend/app/api/bills.py:172-176 | no error exactly when every item's given account exists |
| BillsApi.CheckItemAccounts | backend/app/api/bills.py:172-176 | the item loop returns exactly the specified error |
| BillsApi.NewBillSpec | backend/app/api/bills.py:178-205 | a new bill is a draft with nothing paid, one item per request, consistent totals, GST exactly when requested |
| BillsApi.UpdatedSpec | backend/app/api/bills.py:265-330 | an update keeps id, number, status and payments, keeps totals consistent, and with no items and no GST change keeps items and total |
| BillsApi.PaymentCheck | backend/app/api/bills.py:380-386 | accepts exactly a received or overdue bill and an amount within the balance due; the over-payment 400 names the amount and the balance due |
| Text.FracDigits | backend/app/api/bills.py:385 | the digits after the point of a printed cent amount: one digit when the cents are a multiple of ten, else two, with the same value |
| BillsApi.PaymentKeepsWithinTotal | backend/app/api/bills.py:380-401 | an accepted payment raises amount paid by its amount without passing the total, and marks the bill paid exactly when it is paid off |
| BillsApi.MatchingBills | backend/app/api/bills.py:222-229 | exactly the bills with the status and vendor, each filter applied only when given |
| BillsApi.ListBillsMatch | backend/app/api/bills.py:214-237 | an unknown status filter is refused; otherwise the count of matches and a page of at most 100 matching bills |
| BillsApi.ListBillsNewestFirst | backend/app/api/bills.py:231 | listed bills are newest first |
| BillsApi.BillIndex | backend/app/api/bills.py:240-248 | the index holds the bill with that id; none exactly when no bill has it |
| BillsApi.BillStore.GetBill | backend/app/api/bills.py:240-250 | 404 exactly for an unknown id; otherwise that bill |
| BillsApi.BillStore.CreateBill | backend/app/api/bills.py:159-211 | after the vendor and account checks, stores a new draft bill with the next number; otherwise nothing changes |
| BillsApi.BillStore.UpdateBill | backend/app/api/bills.py:253-333 | only draft or received bills change; checks fail without change; otherwise the bill is replaced by its update |
| BillsApi.BillStore.UpdateBillStatus | backend/app/api/bills.py:336-355 | sets the status; posts the bill entry only on the draft-to-received transition |
| BillsApi.BillStore.DeleteBill | backend/app/api/bills.py:358-368 | only a draft bill is removed; otherwise nothing changes |
| BillsApi.BillStore.RecordBillPayment | backend/app/api/bills.py:371-404 | only received or overdue bills take a payment no larger than the balance due, with `PaymentCheck`'s error otherwise; the bill is updated and the payment posted |
| InvoicesApi.ConsistentInvoiceTotals | backend/app/api/invoices.py:79-84 | an invoice built by `_calc_totals` has total = subtotal + GST, non-negative parts, and no GST at rate 0 |
| InvoicesApi.NewInvoiceSpec | backend/app/api/invoices.py:139-168 | a new invoice is a draft with no paid date, one item per request, consistent totals, GST exactly when requested |
| InvoicesApi.UpdatedSpec | backend/app/api/invoices.py:237-270 | an update keeps id, number, status and paid date, keeps totals consistent, and with no items and no GST change keeps items and total |
| InvoicesApi.WithStatusSpec | backend/app/api/invoices.py:282-286 | paid keeps an existing paid date or sets today; any other status clears it |
| InvoicesApi.MatchingInvoices | backend/app/api/invoices.py:180-187 | exactly the invoices with the status and customer, each filter applied only when given |
| InvoicesApi.ListInvoicesMatch | backend/app/api/invoices.py:172-195 | an unknown status filter is refused; otherwise the count of matches and a page of at most 100 matching invoices |
| InvoicesApi.ListInvoicesNewestFirst | backend/app/api/invoices.py:189 | listed invoices are newest first |
| InvoicesApi.InvoiceIndex | backend/app/api/invoices.py:198-206 | the index holds the invoice with that id; none exactly when no invoice has it |
| InvoicesApi.InvoiceStore.GetInvoice | backend/app/api/invoices.py:198-208 | 404 exactly for an unknown id; otherwise that invoice |
| InvoicesApi.InvoiceStore.CreateInvoice | backend/app/api/invoices.py:133-169 | stores a new draft invoice with the next number exactly when the customer exists |
| InvoicesApi.InvoiceStore.UpdateInvoice | backend/app/api/invoices.py:211-274 | only a draft invoice changes; otherwise it is replaced by its update |
| InvoicesApi.InvoiceStore.UpdateInvoiceStatus | backend/app/api/invoices.py:277-290 | sets the status with the paid-date rule; no journal entry is posted |
| InvoicesApi.InvoiceStore.DeleteInvoice | backend/app/api/invoices.py:293-303 | only a draft invoice is removed |
| Reports.InPeriodOf | backend/app/api/reports.py:29-32 | exactly the transactions dated inside the period |
| Reports.DeductiblePartition | backend/app/api/reports.py:139-143 | deductible and non-deductible expenses add up to all expenses |
| Reports.ExpenseBucketsSpec | backend/app/api/reports.py:44 | by-category buckets have distinct keys, each holds its subcategory's total ("Other" when missing), and they sum to total expenses |
| Reports.Percent | backend/app/api/reports.py:67 | part/whole × 100 to two decimals (basis points) when whole > 0, else 0 |
| Reports.ProfitAndLoss | backend/app/api/reports.py:19-69 | revenue and expenses are the category sums, tax paid sums expense taxes only, net income is their difference, margin as above |
| Reports.SubcategoryGroupsSpec | backend/app/api/reports.py:78-86 | the category groups have distinct keys and their totals and counts cover every expense |
| Reports.ExpensesByCategorySpec | backend/app/api/reports.py:72-107 | the total is total expenses; a missing subcategory is named "Uncategorized"; categories are sorted by total descending; all percentages are 0 when the total is not positive |
| Reports.TaxSummaryOf | backend/app/api/reports.py:111-169 | net owing = collected − paid, taxable income = revenue − deductible, expense total = deductible + non-deductible |
| Reports.TaxSummaryCoversExpenses | backend/app/api/reports.py:159 | the tax summary's expense total equals all expenses of the year |
| Reports.MonthlySummaryOf | backend/app/api/reports.py:172-220 | twelve months in order with their names and sums, net income per month, yearly totals summed over months |
| Reports.MonthlyTotalsAreYearTotals | backend/app/api/reports.py:209-218 | the yearly totals equal the year's revenue and expenses |
| Reports.DashboardStats | backend/app/api/reports.py:223-272 | document counts, this month's net income, and the five most recent uploads newest first |
| BankImport.FirstDate | backend/app/services/bank_import.py:13-30 | the date from the first format that parses; none exactly when no format parses |
| BankImport.ParseAmount | backend/app/services/bank_import.py:33-44 | empty text gives none; otherwise the number read from the cleaned text |
| BankImport.Cleaned | backend/app/services/bank_import.py:37 | the cleaned text holds no comma, dollar sign or space |
| BankImport.BracketsNegate | backend/app/services/bank_import.py:39-40 | "(x)" is read as "-x" |
| BankImport.NormalizeIdempotent | backend/app/services/bank_import.py:93-94 | normalising a header twice is normalising it once |
| BankImport.Headers | backend/app/services/bank_import.py:118 | one normalised header per raw header |
| BankImport.FirstFormat | backend/app/services/bank_import.py:84-90 | the first known format whose headers are all present; none exactly when no format fits |
| BankImport.DetectedColumnsPresent | backend/app/services/bank_import.py:123-175 | a detected format's columns are all among the headers |
| BankImport.LastIndexIn | backend/app/services/bank_import.py:220-232 | the generic scan keeps the last header of each kind; none exactly when there is none |
| BankImport.LayoutCases | backend/app/services/bank_import.py:123-235 | a known format always gives a layout; otherwise the generic layout, or none when date or description is missing |
| BankImport.DebitCreditAmount | backend/app/services/bank_import.py:147-152 | a positive credit gives +credit, else a positive debit gives −debit, else 0 |
| BankImport.SubCentCreditKeptAsWritten | backend/app/services/bank_import.py:153-164 | a credit of 0.001 passes the source's zero check yet is stored as 0 cents |
| BankImport.ParseRow | backend/app/services/bank_import.py:131-166 | an emitted row has a stripped non-empty description and a non-zero amount in cents |
| BankImport.ParsedRowsSpec | backend/app/services/bank_import.py:131-278 | no more rows than records; each emitted row comes from one record and has a non-zero amount and a description |
| BankImport.ParseRows | backend/app/services/bank_import.py:131-166 | the row loop returns exactly the specified rows |
| BankImport.ParseBankCsv | backend/app/services/bank_import.py:97-278 | the parser returns exactly the specified rows |
| BankImport.EmptyCases | backend/app/services/bank_import.py:114-116 | a file with no header row, or no date or description column, gives no rows |
| BankImport.GenericAmountFirst | backend/app/services/bank_import.py:250-253 | an amount column takes precedence over a debit/credit pair |
| BankAccountsApi.AmountSumOthers | backend/app/api/bank_accounts.py:214-219 | other accounts' transactions do not change an account's sum |
| BankAccountsApi.NewRows | backend/app/api/bank_accounts.py:186-211 | the rows kept are rows of the file whose hash was not seen |
| BankAccountsApi.NewRowsCover | backend/app/api/bank_accounts.py:186-211 | every hash of the file is either already stored or among the kept rows |
| BankAccountsApi.NewRowsDistinct | backend/app/api/bank_accounts.py:195-210 | the kept rows have distinct hashes, so duplicates within one file are stored once |
| BankAccountsApi.ReimportStoresNothing | backend/app/api/bank_accounts.py:195-198 | a file whose hashes are all stored imports nothing |
| BankAccountsApi.ImportTwiceStoresOnce | backend/app/api/bank_accounts.py:185-228 | importing the same file again stores nothing |
| BankAccountsApi.Stored | backend/app/api/bank_accounts.py:200-208 | one new transaction per kept row, with consecutive ids, on the account |
| BankAccountsApi.Dedup | backend/app/api/bank_accounts.py:185-211 | the loop stores exactly the kept rows, and imported + skipped = rows in the file |
| BankAccountsApi.MatchingTxns | backend/app/api/bank_accounts.py:247-254 | exactly the account's transactions with the reconciled flag and date range, each filter only when given |
| BankAccountsApi.AccountIndex | backend/app/api/bank_accounts.py:243-245 | the index holds the account with that id; none exactly when no account has it |
| BankAccountsApi.TxnIndex | backend/app/api/bank_accounts.py:278-283 | the index holds the account's transaction with that id; none exactly when there is none |
| BankAccountsApi.PageOfSorted | backend/app/api/bank_accounts.py:257-262 | a page of the sorted matches is sorted and holds only matches |
| BankAccountsApi.BankStore.CreateBankAccount | backend/app/api/bank_accounts.py:89-110 | succeeds exactly for a well-formed request whose truthy GL account id exists; the new account starts with current balance = opening balance |
| BankAccountsApi.BankStore.ListBankAccounts | backend/app/api/bank_accounts.py:113-119 | all accounts, ordered by name |
| BankAccountsApi.BankStore.GetBankAccount | backend/app/api/bank_accounts.py:122-128 | 404 exactly for an unknown id; otherwise that account |
| BankAccountsApi.BankStore.UpdateBankAccount | backend/app/api/bank_accounts.py:131-155 | 404 for unknown, 400 for a missing GL account, and success exactly when neither applies; then only the given fields change |
| BankAccountsApi.BankStore.ImportCsv | backend/app/api/bank_accounts.py:158-228 | rejections in source order with nothing changed; otherwise only new rows are stored, imported + skipped = rows in file, and current balance = opening + sum of the account's amounts |
| BankAccountsApi.BankStore.ListBankTransactions | backend/app/api/bank_accounts.py:232-267 | 404 for unknown; otherwise the match count and a page of at most 200 matches, newest first |
| BankAccountsApi.BankStore.Reconcile | backend/app/api/bank_accounts.py:270-290 | marks the transaction reconciled and links the entry only when one is given |
| BankAccountsApi.BankStore.Unreconcile | backend/app/api/bank_accounts.py:293-310 | marks it unreconciled and clears the link |
| BankAccountsApi.BankStore.RecalculateBalance | backend/app/api/bank_accounts.py:74-84 | current balance = opening balance + sum of the account's transaction amounts |
| Auth.Recent | backend/app/api/auth.py:26 | the failures younger than 300 seconds, and only those |
| Auth.RecentKeepsWindow | backend/app/api/auth.py:26 | pruning keeps a history that lies inside the window |
| Auth.Attempt | backend/app/api/auth.py:57-70 | locked exactly when 5 recent failures remain (whatever the credentials); otherwise refused and one time appended, or accepted and the history cleared |
| Auth.AttemptBounded | backend/app/api/auth.py:25-35 | a history never grows beyond 5 entries |
| Auth.FailuresAccumulate | backend/app/api/auth.py:34-35 | failures inside one window accumulate one time each |
| Auth.FiveFailuresLockOut | backend/app/api/auth.py:19-31 | five failures inside five minutes lock the address out even with correct credentials |
| Auth.WindowExpires | backend/app/api/auth.py:20-27 | once every failure is 300 seconds old, the address is not locked |
| Auth.SessionFor | backend/app/api/auth.py:72-86 | sessions last 30 days with remember-me, else 1 day; the cookie has a max age only with remember-me |
| Auth.LoginLimiter.History | backend/app/api/auth.py:18 | a missing address has the empty history (`defaultdict(list)`) |
| Auth.LoginLimiter.CheckRateLimit | backend/app/api/auth.py:23-31 | prunes the address's history and rejects with 429 exactly when 5 or more remain |
| Auth.LoginLimiter.RecordFailedAttempt | backend/app/api/auth.py:34-35 | appends exactly one time |
| Auth.LoginLimiter.ClearAttempts | backend/app/api/auth.py:38-39 | removes the address's history |
| Auth.LoginLimiter.Login | backend/app/api/auth.py:55-89 | the rate check before the credentials; the outcome and new history are those of the attempt |
| Documents.BaseName | backend/app/api/documents.py:43 | the text after the last '/', which holds no '/' |
| Documents.AfterLastOf | backend/app/api/documents.py:43 | the base name starts just after the last separator |
| Documents.ReplaceUnsafe | backend/app/api/documents.py:45 | every character other than a letter, digit, '_', '.' or '-' becomes '_' |
| Documents.StripLeadingDots | backend/app/api/documents.py:47 | the result does not start with '.' and is a suffix of the input |
| Documents.SanitizeFilename | backend/app/api/documents.py:40-48 | the result is a safe name: non-empty, no leading dot, only safe characters |
| Documents.SanitizeKeepsSafe | backend/app/api/documents.py:40-48 | a safe name is left unchanged |
| Documents.SanitizeIdempotent | backend/app/api/documents.py:40-48 | sanitising twice is sanitising once |
| Documents.SanitizeDropsDirectories | backend/app/api/documents.py:43 | a directory prefix does not change the stored name |
| Documents.Extension | backend/app/api/documents.py:62 | the extension holds no '.' |
| Documents.ExtensionAfterDot | backend/app/api/documents.py:62 | the extension is the lowercased text after the last '.' |
| Documents.UploadCheck | backend/app/api/documents.py:62-87 | accepted exactly for an allowed extension, size at most 10 MB and an allowed content type, with each error in source order |
| Documents.Processed | backend/app/api/documents.py:131-178 | extraction sets review_needed or processed, the document type, category, vendor, amount and tax amount, keeping the review fields; a failure or an exception sets error with its note and changes nothing else |
| Documents.Reviewed | backend/app/api/documents.py:273-275 | reviewed, with the notes; processed when approved, review_needed otherwise |
| Documents.StatusesStayValid | backend/app/api/documents.py:37 | processing, review and reprocessing keep the status among the valid ones |
| Documents.MatchingDocuments | backend/app/api/documents.py:201-204 | exactly the documents with the status, when given |
| Documents.ListDocumentsMatch | backend/app/api/documents.py:189-226 | an unknown status is refused; otherwise the count and a page of at most 100 matches |
| Documents.MatchingKeepsOrder | backend/app/api/documents.py:199-206 | filtering by status keeps the documents in storage order |
| Documents.ListDocumentsNewestFirst | backend/app/api/documents.py:206 | the listed page is newest first: ids strictly decrease along it |
| Documents.DocumentIndex | backend/app/api/documents.py:229-235 | the index holds the document with that id; none exactly when there is none |
| Documents.DocumentStore.Upload | backend/app/api/documents.py:51-110 | a rejected upload changes nothing; an accepted one is stored pending under "<unique>_<safe name>" |
| Documents.DocumentStore.GetDocument | backend/app/api/documents.py:229-235 | 404 exactly for an unknown id; otherwise that document |
| Documents.DocumentStore.ApplyProcessing | backend/app/api/documents.py:131-180 | the document takes its processed state; an unknown id changes nothing |
| Documents.DocumentStore.ReviewDocument | backend/app/api/documents.py:260-279 | 404 for unknown; otherwise the document is replaced by its reviewed version |
| Documents.DocumentStore.ReprocessDocument | backend/app/api/documents.py:304-327 | 404 for unknown; otherwise the status returns to pending |
| Documents.DocumentStore.DeleteDocument | backend/app/api/documents.py:282-301 | 404 for unknown; otherwise the record is removed |
| Ordering.SortBySorted | backend/app/api/journal_entries.py:100 | the sort returns the same rows, ordered |
| Ordering.Page | backend/app/api/journal_entries.py:100 | OFFSET/LIMIT: the rows from `skip` on, at most `limit` of them |

## Left out

- Floating point: money is whole cents. `round(x, 2)` rounds half up here, while Python rounds the binary float. A float sum that drifts by a fraction of a cent is not modelled.
- AccountsApi.CreateCheck: the invalid-type detail lists the valid types in the iteration order of a Python set, which varies between processes; the model fixes one order (asset, liability, equity, revenue, expense).
- BillsApi.PaymentCheck: the amounts in the over-payment detail print as Python prints a float holding whole cents; the exponent notation Python uses from 10^16 on is not modelled.
- Text.Lower: only ASCII letters are lowered. Python's `str.lower()` also folds non-ASCII letters, and can lengthen a string. It is used for bank CSV headers, document extensions and the ".csv" test of a statement upload. Text.Strip removes every character for which `str.isspace()` holds, as Python does.
- Records.Transaction: the transaction date is a `Date`, where the column is a `DateTime`. Transactions are always stored at midnight, so the year windows of the reports that end at 23:59:59 on 31 December hold the same transactions as the inclusive date range the model uses.
- Totals.GstOf: states only that the GST is within half a cent of 5% of the subtotal; which way a tie goes is not part of any property.
- SQLAlchemy sessions, commits, `joinedload` and row locking are left out. Each endpoint is one atomic method, and concurrency between requests is not modelled.
- FastAPI routing and Pydantic parsing are left out. A body that breaks its schema gets one `ValidationError` (422) whose detail text is not Pydantic's.
- `skip` and `limit` are `nat`. A negative value sent to the database is not modelled.
- `created_at` is not stored. "Newest first" by `created_at` is reverse storage order, which matches id order.
- Vendors and customers are sets of ids passed to the bill and invoice methods. `api/customers.py` is not part of this model.
- `date.today()`, `time.time()` and `datetime.now()` are parameters (`today`, `now`).
- `uuid.uuid4()` is the `unique` parameter of `Upload`. The MIME sniff of `python-magic` is its `mime` parameter.
- `datetime.strptime` and `float()` are the `Parsers` parameter of the bank importer. Decoding the uploaded bytes and splitting them into CSV records is not modelled. `ImportCsv` takes the records, or `None` when decoding fails.
- BankImport.ParseRow: the SHA-256 `import_hash` is a constructor of the date, description and amount. This treats two different rows as never colliding.
- BankImport.ParsedRows: one loop, parameterised by the layout, stands for the three row loops of `parse_bank_csv`. They differ only in the columns they read, and each layout keeps its own columns and skip rules.
- `_recalculate_balance` is modelled as `RecalculateBalance`, although no endpoint calls it.
- bcrypt password checks, JWT encoding and the session cookie are left out. The password check is the `passwordMatches` parameter. `SessionFor` records only the username and lifetimes.
- The remaining document work is left out: writing and deleting files, OCR and PDF handling, the AI extraction call and background tasks. The extraction result is a `ProcessingOutcome` parameter.
- Documents.Processed: of the extracted fields, document type, category, vendor, amount and tax amount are tracked; the document's currency, date, tax rate, confidence and `processed_at` are not modelled, nor the partial update left behind when an exception interrupts `process_document_ai`.
- Documents.SanitizeFilename: Python's `\w` also matches non-ASCII letters and digits; the model keeps only ASCII letters and digits, so a non-ASCII letter becomes '_'.
- Documents.Extension: a file name with no '.' is its own extension (lowercased), as `split('.')[-1]` makes it (`NoDotIsExtension`).
- JournalApi.ListJournalEntries: with the account filter the source joins lines, so an entry with several lines on that account can be counted more than once; the model counts each entry once.
- JournalApi.ListJournalEntriesSpec: with the account filter the source applies `offset(skip)` and `limit` to the joined entry-and-line rows and only then removes duplicate entries, so an entry with several lines on the account uses several slots: the source's page can hold fewer than `min(limit, 100)` entries, and later pages start at a different entry. The model skips and caps over distinct entries. Without the account filter the two agree.
- Ledger.ExpenseAccountCode: the source's extra truthiness test on the subcategory is not written out. The empty subcategory is no key of the table, so the result is the same.
- PDF rendering of invoices (`services/pdf_generator.py`) is not part of this model.
- `api/transactions.py`, `config.py`, `main.py` and `deps.py` are not part of this model.
- Invoice posting: `create_je_for_invoice_sent` and `create_je_for_invoice_paid` are modelled, but no invoice endpoint calls them, so no invoice method posts.

## Findings

| source | as written | input that shows it | evidently intended | confidence | as-written member | corrected member |
|---|---|---|---|---|---|---|
| backend/app/services/bank_import.py:153-164 | a row is skipped only when the parsed amount is exactly 0.0, and the stored amount is then rounded to the cent | a credit cell "0.001" with an empty debit cell | no row is stored with a zero amount (the check at 153 is meant to drop empty rows) | medium, not executed | BankImport.SubCentCreditKeptAsWritten | BankImport.ParseRow |

The rest of the model uses the corrected row check: `BankStore.ImportCsv` parses with `ParseRow`, so on the input above the model stores no row where the source stores one with amount 0.00.
