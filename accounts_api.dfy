/** The chart-of-accounts endpoints: account balances, listing, creation,
    update, deletion and the general-ledger view of one account. */
module AccountsApi {
  import opened Common
  import opened Text
  import opened Records
  import opened Ledger
  import opened Posting
  import opened Books
  import opened Ordering

  // ---- Balances (`_account_balance`) ----

  datatype Side = Debit | Credit

  function Amount(l: Line, side: Side): int {
    if side == Debit then l.debit else l.credit
  }

  /** `SUM(debit)` or `SUM(credit)` over the lines naming account `id`. */
  function AccountSum(lines: seq<Line>, id: nat, side: Side): int {
    if lines == [] then 0
    else
      var l := lines[|lines| - 1];
      AccountSum(lines[..|lines| - 1], id, side) + (if l.accountId == id then Amount(l, side) else 0)
  }

  /** The same sum over the lines of posted entries only. */
  function PostedSum(entries: seq<Entry>, id: nat, side: Side): int {
    if entries == [] then 0
    else
      var e := entries[|entries| - 1];
      PostedSum(entries[..|entries| - 1], id, side) + (if e.isPosted then AccountSum(e.lines, id, side) else 0)
  }

  /** The account exists and its normal balance is "credit". */
  predicate CreditNormal(accounts: seq<Account>, id: nat) {
    var a := AccountById(accounts, id);
    a.Some? && a.value.normalBalance == "credit"
  }

  /** `_account_balance`: credits minus debits for a credit-normal account,
      debits minus credits otherwise (an unknown id included). */
  function AccountBalance(accounts: seq<Account>, entries: seq<Entry>, id: nat): int {
    var debit := PostedSum(entries, id, Debit);
    var credit := PostedSum(entries, id, Credit);
    if CreditNormal(accounts, id) then credit - debit else debit - credit
  }

  lemma {:induction false} LinesWithoutAccount(lines: seq<Line>, id: nat, side: Side)
    requires forall l :: l in lines ==> l.accountId != id
    ensures AccountSum(lines, id, side) == 0
  {
    if lines != [] {
      LinesWithoutAccount(lines[..|lines| - 1], id, side);
    }
  }

  lemma {:induction false} PostedWithoutAccount(entries: seq<Entry>, id: nat, side: Side)
    requires forall e, l :: e in entries && e.isPosted && l in e.lines ==> l.accountId != id
    ensures PostedSum(entries, id, side) == 0
  {
    if entries != [] {
      var e := entries[|entries| - 1];
      PostedWithoutAccount(entries[..|entries| - 1], id, side);
      if e.isPosted {
        LinesWithoutAccount(e.lines, id, side);
      }
    }
  }

  /** An account no posted line names has balance 0, whatever its normal balance. */
  lemma BalanceWithoutPostedLines(accounts: seq<Account>, entries: seq<Entry>, id: nat)
    requires forall e, l :: e in entries && e.isPosted && l in e.lines ==> l.accountId != id
    ensures AccountBalance(accounts, entries, id) == 0
  {
    PostedWithoutAccount(entries, id, Debit);
    PostedWithoutAccount(entries, id, Credit);
  }

  /** Storing one more entry moves the balance by that entry's own lines on
      the account, signed by the normal balance; an unposted entry moves nothing. */
  lemma BalanceAfterEntry(accounts: seq<Account>, entries: seq<Entry>, e: Entry, id: nat)
    ensures var delta := AccountSum(e.lines, id, Debit) - AccountSum(e.lines, id, Credit);
      AccountBalance(accounts, entries + [e], id) == AccountBalance(accounts, entries, id)
        + (if !e.isPosted then 0 else if CreditNormal(accounts, id) then -delta else delta)
  {
    assert (entries + [e])[..|entries|] == entries;
  }

  // ---- Trial balance: the per-account sums add up to the ledger totals ----

  /** No two accounts share an id. */
  ghost predicate DistinctIds(accounts: seq<Account>) {
    forall i, j :: 0 <= i < j < |accounts| ==> accounts[i].id != accounts[j].id
  }

  function SideTotal(lines: seq<Line>, side: Side): int {
    if side == Debit then TotalDebit(lines) else TotalCredit(lines)
  }

  /** One side of the lines, split account by account over the chart. */
  function ChartLinesSum(accounts: seq<Account>, lines: seq<Line>, side: Side): int {
    if accounts == [] then 0
    else ChartLinesSum(accounts[..|accounts| - 1], lines, side) + AccountSum(lines, accounts[|accounts| - 1].id, side)
  }

  /** One side of the posted ledger, split account by account over the chart. */
  function ChartSum(accounts: seq<Account>, entries: seq<Entry>, side: Side): int {
    if accounts == [] then 0
    else ChartSum(accounts[..|accounts| - 1], entries, side) + PostedSum(entries, accounts[|accounts| - 1].id, side)
  }

  lemma {:induction false} ChartLinesSnoc(accounts: seq<Account>, lines: seq<Line>, l: Line, side: Side)
    requires DistinctIds(accounts)
    ensures ChartLinesSum(accounts, lines + [l], side)
      == ChartLinesSum(accounts, lines, side) + (if AccountById(accounts, l.accountId).Some? then Amount(l, side) else 0)
  {
    assert (lines + [l])[..|lines|] == lines;
    if accounts != [] {
      var prefix := accounts[..|accounts| - 1];
      var last := accounts[|accounts| - 1];
      ChartLinesSnoc(prefix, lines, l, side);
      assert forall a :: a in accounts <==> a in prefix || a == last;
      if AccountById(prefix, l.accountId).Some? {
        var k :| 0 <= k < |prefix| && prefix[k] == AccountById(prefix, l.accountId).value;
        assert accounts[k] == prefix[k];
        assert last.id != l.accountId;
      }
    }
  }

  lemma {:induction false} ChartLinesTotal(accounts: seq<Account>, lines: seq<Line>, side: Side)
    requires DistinctIds(accounts) && LinesReferTo(lines, accounts)
    ensures ChartLinesSum(accounts, lines, side) == SideTotal(lines, side)
  {
    if lines == [] {
      ChartLinesEmpty(accounts, side);
    } else {
      var prefix := lines[..|lines| - 1];
      var l := lines[|lines| - 1];
      assert lines == prefix + [l];
      ChartLinesTotal(accounts, prefix, side);
      ChartLinesSnoc(accounts, prefix, l, side);
    }
  }

  lemma {:induction false} ChartLinesEmpty(accounts: seq<Account>, side: Side)
    ensures ChartLinesSum(accounts, [], side) == 0
  {
    if accounts != [] {
      ChartLinesEmpty(accounts[..|accounts| - 1], side);
    }
  }

  lemma {:induction false} ChartSumSnoc(accounts: seq<Account>, entries: seq<Entry>, e: Entry, side: Side)
    ensures ChartSum(accounts, entries + [e], side)
      == ChartSum(accounts, entries, side) + (if e.isPosted then ChartLinesSum(accounts, e.lines, side) else 0)
  {
    assert (entries + [e])[..|entries|] == entries;
    if accounts != [] {
      ChartSumSnoc(accounts[..|accounts| - 1], entries, e, side);
    }
  }

  lemma {:induction false} ChartSumEmpty(accounts: seq<Account>, side: Side)
    ensures ChartSum(accounts, [], side) == 0
  {
    if accounts != [] {
      ChartSumEmpty(accounts[..|accounts| - 1], side);
    }
  }

  lemma {:induction false} ChartSumIsLedgerTotal(accounts: seq<Account>, entries: seq<Entry>)
    requires DistinctIds(accounts)
    requires forall e :: e in entries ==> e.isPosted && LinesReferTo(e.lines, accounts)
    ensures ChartSum(accounts, entries, Debit) == LedgerDebit(entries)
    ensures ChartSum(accounts, entries, Credit) == LedgerCredit(entries)
  {
    if entries == [] {
      ChartSumEmpty(accounts, Debit);
      ChartSumEmpty(accounts, Credit);
    } else {
      var prefix := entries[..|entries| - 1];
      var e := entries[|entries| - 1];
      assert entries == prefix + [e];
      ChartSumIsLedgerTotal(accounts, prefix);
      ChartSumSnoc(accounts, prefix, e, Debit);
      ChartSumSnoc(accounts, prefix, e, Credit);
      ChartLinesTotal(accounts, e.lines, Debit);
      ChartLinesTotal(accounts, e.lines, Credit);
    }
  }

  /** Trial balance of the books: over the whole chart, the posted debits of
      all accounts add up to their posted credits. */
  lemma TrialBalance(accounts: seq<Account>, entries: seq<Entry>, nextAccountId: nat, nextEntryId: nat)
    requires ChartInvariant(accounts, nextAccountId) && LedgerInvariant(entries, nextEntryId)
    requires forall e :: e in entries ==> LinesReferTo(e.lines, accounts)
    ensures ChartSum(accounts, entries, Debit) == ChartSum(accounts, entries, Credit)
  {
    ChartSumIsLedgerTotal(accounts, entries);
    LedgerBalances(entries);
  }

  // ---- Ledger view (`get_account_ledger`) ----

  /** One row of the general-ledger view: a posted line and its entry's header. */
  datatype LedgerRow = LedgerRow(
    entryId: nat,
    date: Date,
    description: string,
    reference: Option<string>,
    entryType: string,
    debit: int,
    credit: int)

  /** `line.description or line.journal_entry.description` */
  function RowOf(e: Entry, l: Line): LedgerRow {
    var text := if l.description.Some? && l.description.value != "" then l.description.value else e.description;
    LedgerRow(e.id, e.date, text, e.reference, e.entryType, l.debit, l.credit)
  }

  function RowsOfLines(e: Entry, lines: seq<Line>, id: nat): seq<LedgerRow> {
    if lines == [] then []
    else
      var l := lines[|lines| - 1];
      RowsOfLines(e, lines[..|lines| - 1], id) + (if l.accountId == id then [RowOf(e, l)] else [])
  }

  /** The rows the ledger query selects, before ordering: every line naming
      the account in every posted entry. */
  function LedgerRows(entries: seq<Entry>, id: nat): seq<LedgerRow> {
    if entries == [] then []
    else
      var e := entries[|entries| - 1];
      LedgerRows(entries[..|entries| - 1], id) + (if e.isPosted then RowsOfLines(e, e.lines, id) else [])
  }

  function RowsSum(rows: seq<LedgerRow>, side: Side): int {
    if rows == [] then 0
    else
      var r := rows[|rows| - 1];
      RowsSum(rows[..|rows| - 1], side) + (if side == Debit then r.debit else r.credit)
  }

  lemma {:induction false} RowsSumConcat(a: seq<LedgerRow>, b: seq<LedgerRow>, side: Side)
    ensures RowsSum(a + b, side) == RowsSum(a, side) + RowsSum(b, side)
  {
    if b != [] {
      assert (a + b)[..|a + b| - 1] == a + b[..|b| - 1];
      RowsSumConcat(a, b[..|b| - 1], side);
    } else {
      assert a + b == a;
    }
  }

  lemma {:induction false} RowsOfLinesSum(e: Entry, lines: seq<Line>, id: nat, side: Side)
    ensures RowsSum(RowsOfLines(e, lines, id), side) == AccountSum(lines, id, side)
  {
    if lines != [] {
      var l := lines[|lines| - 1];
      RowsOfLinesSum(e, lines[..|lines| - 1], id, side);
      RowsSumConcat(RowsOfLines(e, lines[..|lines| - 1], id), if l.accountId == id then [RowOf(e, l)] else [], side);
      assert RowsSum([RowOf(e, l)], side) == Amount(l, side) by {
        assert [RowOf(e, l)][..0] == [];
      }
    }
  }

  /** The ledger view lists exactly what the balance adds up: its debit and
      credit columns total the account's posted debits and credits. */
  lemma {:induction false} LedgerRowsMatchBalance(entries: seq<Entry>, id: nat, side: Side)
    ensures RowsSum(LedgerRows(entries, id), side) == PostedSum(entries, id, side)
  {
    if entries != [] {
      var e := entries[|entries| - 1];
      LedgerRowsMatchBalance(entries[..|entries| - 1], id, side);
      RowsSumConcat(LedgerRows(entries[..|entries| - 1], id), if e.isPosted then RowsOfLines(e, e.lines, id) else [], side);
      if e.isPosted {
        RowsOfLinesSum(e, e.lines, id, side);
      }
    }
  }

  /** `ORDER BY entry_date DESC, id DESC`: `a` may come before `b`. */
  predicate NewestFirst(a: LedgerRow, b: LedgerRow) {
    if a.date == b.date then a.entryId >= b.entryId else DateLe(b.date, a.date)
  }

  lemma NewestFirstIsPreorder()
    ensures TotalPreorder(NewestFirst)
  {
    forall a: LedgerRow, b: LedgerRow ensures NewestFirst(a, b) || NewestFirst(b, a) {
      DateLeTotal(a.date, b.date);
    }
    forall a: LedgerRow, b: LedgerRow, c: LedgerRow | NewestFirst(a, b) && NewestFirst(b, c)
      ensures NewestFirst(a, c)
    {
      DateLeTotal(a.date, b.date);
      DateLeTotal(b.date, c.date);
      DateLeTotal(a.date, c.date);
      DateLeTransitive(c.date, b.date, a.date);
    }
  }

  /** The view's page size cap (`min(limit, 200)`). */
  const LedgerPageCap := 200

  datatype AccountLedger = AccountLedger(account: Account, balance: int, total: nat, rows: seq<LedgerRow>)

  /** `get_account_ledger` */
  function GetAccountLedger(accounts: seq<Account>, entries: seq<Entry>, id: nat, skip: nat, limit: nat)
    : Result<AccountLedger, HttpError>
  {
    var account := AccountById(accounts, id);
    if account.None? then Err(HttpError(404, "Account not found"))
    else
      var rows := LedgerRows(entries, id);
      var size := if limit < LedgerPageCap then limit else LedgerPageCap;
      Ok(AccountLedger(account.value, AccountBalance(accounts, entries, id), |rows|,
        Page(SortBy(rows, NewestFirst), skip, size)))
  }

  /** The ledger page: unknown accounts are a 404; otherwise `total` counts
      every posted line of the account, and the page is the run of at most
      `min(limit, 200)` rows starting at `skip` in the newest-first order of
      exactly those lines. */
  lemma GetAccountLedgerSpec(accounts: seq<Account>, entries: seq<Entry>, id: nat, skip: nat, limit: nat)
    ensures var r := GetAccountLedger(accounts, entries, id, skip, limit);
      && (r.Err? <==> AccountById(accounts, id).None?)
      && (r.Err? ==> r.error == HttpError(404, "Account not found"))
      && (r.Ok? ==>
        var ordered := SortBy(LedgerRows(entries, id), NewestFirst);
        && r.value.account == AccountById(accounts, id).value
        && r.value.balance == AccountBalance(accounts, entries, id)
        && r.value.total == |LedgerRows(entries, id)|
        && SortedBy(ordered, NewestFirst)
        && multiset(ordered) == multiset(LedgerRows(entries, id))
        && |r.value.rows| <= LedgerPageCap && |r.value.rows| <= limit
        && (forall i :: 0 <= i < |r.value.rows| ==> r.value.rows[i] == ordered[skip + i])
        && (skip < |ordered| && limit > 0 ==> r.value.rows != []))
  {
    NewestFirstIsPreorder();
    SortBySorted(LedgerRows(entries, id), NewestFirst);
  }

  // ---- Listing (`list_accounts`, `get_account`) ----

  /** An account as the endpoints serialize it, with its balance when asked for. */
  datatype AccountView = AccountView(account: Account, balance: Option<int>)

  /** The query's filters: `account_type` only when truthy, `active_only`. */
  predicate Listed(a: Account, accountType: Option<string>, activeOnly: bool) {
    && (accountType.Some? && accountType.value != "" ==> a.accountType == accountType.value)
    && (activeOnly ==> a.isActive)
  }

  function Filtered(accounts: seq<Account>, accountType: Option<string>, activeOnly: bool): (r: seq<Account>)
    ensures forall a :: a in r <==> a in accounts && Listed(a, accountType, activeOnly)
  {
    if accounts == [] then []
    else
      var a := accounts[|accounts| - 1];
      Filtered(accounts[..|accounts| - 1], accountType, activeOnly) + (if Listed(a, accountType, activeOnly) then [a] else [])
  }

  /** `ORDER BY code` */
  predicate CodeOrder(a: Account, b: Account) {
    StrLe(a.code, b.code)
  }

  lemma CodeOrderIsPreorder()
    ensures TotalPreorder(CodeOrder)
  {
    forall a: Account, b: Account ensures CodeOrder(a, b) || CodeOrder(b, a) {
      StrLeTotal(a.code, b.code);
    }
    forall a: Account, b: Account, c: Account | CodeOrder(a, b) && CodeOrder(b, c)
      ensures CodeOrder(a, c)
    {
      StrLeTransitive(a.code, b.code, c.code);
    }
  }

  function ViewOf(accounts: seq<Account>, entries: seq<Entry>, a: Account, withBalances: bool): AccountView {
    AccountView(a, if withBalances then Some(AccountBalance(accounts, entries, a.id)) else None)
  }

  /** The accounts `list_accounts` returns, in order. */
  function ListedAccounts(accounts: seq<Account>, accountType: Option<string>, activeOnly: bool): seq<Account> {
    SortBy(Filtered(accounts, accountType, activeOnly), CodeOrder)
  }

  /** The listing holds each account passing the filters exactly as often as
      the chart does, and nothing else, in code order. */
  lemma ListedAccountsSpec(accounts: seq<Account>, accountType: Option<string>, activeOnly: bool)
    ensures var r := ListedAccounts(accounts, accountType, activeOnly);
      && multiset(r) == multiset(Filtered(accounts, accountType, activeOnly))
      && (forall a :: a in r <==> a in accounts && Listed(a, accountType, activeOnly))
      && (forall i, j :: 0 <= i < j < |r| ==> StrLe(r[i].code, r[j].code))
  {
    var filtered := Filtered(accounts, accountType, activeOnly);
    CodeOrderIsPreorder();
    SortBySorted(filtered, CodeOrder);
    var r := ListedAccounts(accounts, accountType, activeOnly);
    forall a ensures a in r <==> a in filtered {
      assert a in r <==> a in multiset(r);
      assert a in filtered <==> a in multiset(filtered);
    }
  }

  /** `list_accounts`: the listed accounts, each with its balance exactly
      when balances are asked for. */
  function ListAccounts(accounts: seq<Account>, entries: seq<Entry>, accountType: Option<string>,
                        activeOnly: bool, withBalances: bool): (r: seq<AccountView>)
    ensures |r| == |ListedAccounts(accounts, accountType, activeOnly)|
    ensures forall i :: 0 <= i < |r| ==> r[i].account == ListedAccounts(accounts, accountType, activeOnly)[i]
    ensures forall v :: v in r ==> (v.balance.Some? <==> withBalances)
    ensures forall v :: v in r && withBalances ==> v.balance == Some(AccountBalance(accounts, entries, v.account.id))
  {
    var listed := ListedAccounts(accounts, accountType, activeOnly);
    seq(|listed|, i requires 0 <= i < |listed| => ViewOf(accounts, entries, listed[i], withBalances))
  }

  /** `get_account` */
  function GetAccount(accounts: seq<Account>, entries: seq<Entry>, id: nat): (r: Result<AccountView, HttpError>)
    ensures r.Err? <==> AccountById(accounts, id).None?
    ensures r.Err? ==> r.error == HttpError(404, "Account not found")
    ensures r.Ok? ==> && r.value.account.id == id && r.value.account in accounts
                      && r.value.balance == Some(AccountBalance(accounts, entries, id))
  {
    var a := AccountById(accounts, id);
    if a.None? then Err(HttpError(404, "Account not found"))
    else Ok(ViewOf(accounts, entries, a.value, true))
  }

  // ---- Creation (`create_account`) ----

  /** `AccountCreate`; a missing `normal_balance` arrives as `Some("debit")`,
      the schema's default, and an explicit null as `None`. */
  datatype AccountCreate = AccountCreate(
    code: string,
    name: string,
    accountType: string,
    subType: Option<string>,
    description: Option<string>,
    parentAccountId: Option<int>,
    taxCode: Option<string>,
    normalBalance: Option<string>)

  /** The `Field(min_length=..., max_length=...)` limits of `AccountCreate`. */
  predicate CreateWellFormed(data: AccountCreate) {
    && 1 <= |data.code| <= 20
    && 1 <= |data.name| <= 255
    && 1 <= |data.accountType| <= 20
    && MaxLength(data.subType, 50)
    && MaxLength(data.taxCode, 20)
  }

  const AccountTypes: seq<string> := ["asset", "liability", "equity", "revenue", "expense"]

  /** The 400 detail for an unknown account type. The source lists the
      valid types in the iteration order of a Python set; this is one such
      order. */
  const InvalidTypeDetail := "Invalid account_type. Must be one of: asset, liability, equity, revenue, expense"

  /** `data.normal_balance or ("credit" if type is liability/equity/revenue else "debit")` */
  function DefaultNormalBalance(requested: Option<string>, accountType: string): string {
    if requested.Some? && requested.value != "" then requested.value
    else if accountType in ["liability", "equity", "revenue"] then "credit"
    else "debit"
  }

  /** The type-based fallback only fills an empty or null normal balance; a
      request that leaves the field out gets the schema default "debit",
      whatever its account type. */
  lemma DefaultNormalBalanceSpec(requested: Option<string>, accountType: string)
    ensures requested.Some? && requested.value != "" ==> DefaultNormalBalance(requested, accountType) == requested.value
    ensures DefaultNormalBalance(Some("debit"), accountType) == "debit"
    ensures requested == None || requested == Some("") ==>
      (DefaultNormalBalance(requested, accountType) == "credit" <==> accountType in ["liability", "equity", "revenue"])
  {
  }

  /** The row `create_account` stores: a user account, active, not a system account. */
  function NewAccount(data: AccountCreate, id: nat): Account {
    Account(id, data.code, data.name, data.accountType, data.subType, data.description,
      data.parentAccountId, true, false, data.taxCode, DefaultNormalBalance(data.normalBalance, data.accountType))
  }

  /** The checks `create_account` makes, in order, before storing anything. */
  function CreateCheck(accounts: seq<Account>, data: AccountCreate): (r: Option<HttpError>)
    ensures r.None? <==>
      && CreateWellFormed(data) && data.accountType in AccountTypes
      && data.code !in CodesOf(accounts)
      && (Truthy(data.parentAccountId) ==> AccountById(accounts, data.parentAccountId.value).Some?)
    ensures !CreateWellFormed(data) ==> r == Some(ValidationError)
    ensures CreateWellFormed(data) && data.accountType !in AccountTypes ==>
      r == Some(HttpError(400, InvalidTypeDetail))
    ensures CreateWellFormed(data) && data.accountType in AccountTypes && data.code in CodesOf(accounts) ==>
      r == Some(HttpError(400, "Account code " + data.code + " already exists"))
  {
    if !CreateWellFormed(data) then Some(ValidationError)
    else if data.accountType !in AccountTypes then Some(HttpError(400, InvalidTypeDetail))
    else if exists a :: a in accounts && a.code == data.code then
      Some(HttpError(400, "Account code " + data.code + " already exists"))
    else if Truthy(data.parentAccountId) && AccountById(accounts, data.parentAccountId.value).None? then
      Some(HttpError(400, "Parent account not found"))
    else None
  }

  /** `create_account`: either one rejection and nothing stored, or the new
      account appended under the next id, which is returned. */
  method CreateAccount(b: Books, data: AccountCreate) returns (r: Result<nat, HttpError>)
    requires b.Valid()
    modifies b
    ensures b.Valid()
    ensures var check := CreateCheck(old(b.accounts), data);
      && (check.Some? ==> r == Err(check.value) && b.accounts == old(b.accounts) && b.nextAccountId == old(b.nextAccountId))
      && (check.None? ==> && r == Ok(old(b.nextAccountId))
                          && b.accounts == old(b.accounts) + [NewAccount(data, old(b.nextAccountId))]
                          && b.nextAccountId == old(b.nextAccountId) + 1)
    ensures b.entries == old(b.entries) && b.nextEntryId == old(b.nextEntryId)
  {
    var check := CreateCheck(b.accounts, data);
    if check.Some? {
      return Err(check.value);
    }
    var id := b.nextAccountId;
    b.AddAccount(NewAccount(data, id));
    return Ok(id);
  }

  /** A created account is found under its id and, being active, under its
      code, and it starts with balance 0. */
  lemma CreatedAccountResolves(accounts: seq<Account>, entries: seq<Entry>, nextAccountId: nat, data: AccountCreate)
    requires ChartInvariant(accounts, nextAccountId)
    requires forall e :: e in entries ==> LinesReferTo(e.lines, accounts)
    requires CreateCheck(accounts, data).None?
    ensures var after := accounts + [NewAccount(data, nextAccountId)];
      && AccountById(after, nextAccountId) == Some(NewAccount(data, nextAccountId))
      && ActiveByCode(after, data.code) == Some(NewAccount(data, nextAccountId))
      && AccountBalance(after, entries, nextAccountId) == 0
  {
    var a := NewAccount(data, nextAccountId);
    var after := accounts + [a];
    assert forall b :: b in after ==> b in accounts || b == a;
    forall e, l | e in entries && e.isPosted && l in e.lines ensures l.accountId != nextAccountId {
      assert AccountById(accounts, l.accountId).Some?;
    }
    BalanceWithoutPostedLines(after, entries, nextAccountId);
  }

  // ---- Update (`update_account`) ----

  /** `AccountUpdate`: every field optional; `None` means "leave as is". */
  datatype AccountUpdate = AccountUpdate(
    name: Option<string>,
    description: Option<string>,
    subType: Option<string>,
    taxCode: Option<string>,
    isActive: Option<bool>)

  predicate UpdateWellFormed(data: AccountUpdate) {
    MaxLength(data.name, 255) && MaxLength(data.subType, 50) && MaxLength(data.taxCode, 20)
  }

  function Patched(a: Account, data: AccountUpdate): Account {
    a.(name := if data.name.Some? then data.name.value else a.name,
       description := if data.description.Some? then data.description else a.description,
       subType := if data.subType.Some? then data.subType else a.subType,
       taxCode := if data.taxCode.Some? then data.taxCode else a.taxCode,
       isActive := if data.isActive.Some? then data.isActive.value else a.isActive)
  }

  /** An update touches only name, description, sub type, tax code and the
      active flag, each only when given; everything else stays. */
  lemma PatchedSpec(a: Account, data: AccountUpdate)
    ensures var p := Patched(a, data);
      && p.id == a.id && p.code == a.code && p.accountType == a.accountType
      && p.parentId == a.parentId && p.isSystem == a.isSystem && p.normalBalance == a.normalBalance
      && (data.name.Some? ==> p.name == data.name.value) && (data.name.None? ==> p.name == a.name)
      && (data.description.Some? ==> p.description == data.description)
      && (data.description.None? ==> p.description == a.description)
      && (data.subType.Some? ==> p.subType == data.subType) && (data.subType.None? ==> p.subType == a.subType)
      && (data.taxCode.Some? ==> p.taxCode == data.taxCode) && (data.taxCode.None? ==> p.taxCode == a.taxCode)
      && (data.isActive.Some? ==> p.isActive == data.isActive.value)
      && (data.isActive.None? ==> p.isActive == a.isActive)
    ensures data == AccountUpdate(None, None, None, None, None) ==> Patched(a, data) == a
  {
  }

  /** `update_account` */
  method UpdateAccount(b: Books, id: nat, data: AccountUpdate) returns (r: Result<(), HttpError>)
    requires b.Valid()
    modifies b
    ensures b.Valid()
    ensures b.entries == old(b.entries) && b.nextEntryId == old(b.nextEntryId) && b.nextAccountId == old(b.nextAccountId)
    ensures !UpdateWellFormed(data) ==> r == Err(ValidationError)
    ensures UpdateWellFormed(data) && IndexById(old(b.accounts), id).None? ==> r == Err(HttpError(404, "Account not found"))
    ensures r.Err? ==> b.accounts == old(b.accounts)
    ensures r.Ok? <==> UpdateWellFormed(data) && IndexById(old(b.accounts), id).Some?
    ensures r.Ok? ==> var k := IndexById(old(b.accounts), id).value;
      b.accounts == old(b.accounts)[k := Patched(old(b.accounts)[k], data)]
  {
    if !UpdateWellFormed(data) {
      return Err(ValidationError);
    }
    var k := IndexById(b.accounts, id);
    if k.None? {
      return Err(HttpError(404, "Account not found"));
    }
    b.ReplaceAccount(k.value, Patched(b.accounts[k.value], data));
    return Ok(());
  }

  /** With distinct ids, the lookup by an account's own id finds that account. */
  lemma AccountByOwnId(accounts: seq<Account>, i: nat)
    requires DistinctIds(accounts) && i < |accounts|
    ensures AccountById(accounts, accounts[i].id) == Some(accounts[i])
  {
    var found := AccountById(accounts, accounts[i].id).value;
    var j :| 0 <= j < |accounts| && accounts[j] == found;
    assert j == i;
  }

  /** Replacing an account by one with the same id and normal balance
      changes no account's balance. */
  lemma ReplaceKeepsBalances(accounts: seq<Account>, entries: seq<Entry>, k: nat, a: Account)
    requires DistinctIds(accounts) && k < |accounts|
    requires a.id == accounts[k].id && a.normalBalance == accounts[k].normalBalance
    ensures forall id :: AccountBalance(accounts[k := a], entries, id) == AccountBalance(accounts, entries, id)
  {
    var after := accounts[k := a];
    assert DistinctIds(after);
    forall id ensures CreditNormal(after, id) == CreditNormal(accounts, id) {
      if i :| 0 <= i < |accounts| && accounts[i].id == id {
        AccountByOwnId(accounts, i);
        AccountByOwnId(after, i);
      } else {
        assert forall b :: b in after ==> b.id != id by {
          forall b | b in after ensures b.id != id {
            var j :| 0 <= j < |after| && after[j] == b;
          }
        }
      }
    }
  }

  /** An update never moves a balance. */
  lemma UpdateKeepsBalances(accounts: seq<Account>, entries: seq<Entry>, k: nat, data: AccountUpdate)
    requires DistinctIds(accounts) && k < |accounts|
    ensures forall id ::
      AccountBalance(accounts[k := Patched(accounts[k], data)], entries, id) == AccountBalance(accounts, entries, id)
  {
    ReplaceKeepsBalances(accounts, entries, k, Patched(accounts[k], data));
  }

  // ---- Deletion (`delete_account`) ----

  const DeactivatedMessage := "Account deactivated (has existing journal entries)"
  const DeletedMessage := "Account deleted"

  /** `delete_account`: system accounts are refused; an account some journal
      line names is only deactivated; any other is deleted. */
  method DeleteAccount(b: Books, id: nat) returns (r: Result<string, HttpError>)
    requires b.Valid()
    modifies b
    ensures b.Valid()
    ensures b.entries == old(b.entries) && b.nextEntryId == old(b.nextEntryId) && b.nextAccountId == old(b.nextAccountId)
    ensures IndexById(old(b.accounts), id).None? ==> r == Err(HttpError(404, "Account not found"))
    ensures r.Err? ==> b.accounts == old(b.accounts)
    ensures IndexById(old(b.accounts), id).Some? ==>
      var k := IndexById(old(b.accounts), id).value;
      var a := old(b.accounts)[k];
      && (a.isSystem ==> r == Err(HttpError(400, "System accounts cannot be deleted")))
      && (!a.isSystem && Referenced(old(b.entries), id) ==>
            r == Ok(DeactivatedMessage) && b.accounts == old(b.accounts)[k := a.(isActive := false)])
      && (!a.isSystem && !Referenced(old(b.entries), id) ==>
            r == Ok(DeletedMessage) && b.accounts == old(b.accounts)[..k] + old(b.accounts)[k + 1..])
  {
    var k := IndexById(b.accounts, id);
    if k.None? {
      return Err(HttpError(404, "Account not found"));
    }
    var a := b.accounts[k.value];
    if a.isSystem {
      return Err(HttpError(400, "System accounts cannot be deleted"));
    }
    if Referenced(b.entries, id) {
      b.ReplaceAccount(k.value, a.(isActive := false));
      return Ok(DeactivatedMessage);
    }
    b.RemoveAccount(k.value);
    return Ok(DeletedMessage);
  }

  /** After a successful delete the code no longer resolves for posting,
      and no balance of the books has moved. */
  lemma DeleteOutcome(accounts: seq<Account>, entries: seq<Entry>, nextAccountId: nat, k: nat)
    requires ChartInvariant(accounts, nextAccountId) && k < |accounts|
    ensures var a := accounts[k];
      var after := if Referenced(entries, a.id) then accounts[k := a.(isActive := false)]
                   else accounts[..k] + accounts[k + 1..];
      && ActiveByCode(after, a.code).None?
      && forall id :: AccountBalance(after, entries, id) == AccountBalance(accounts, entries, id)
  {
    var a := accounts[k];
    if Referenced(entries, a.id) {
      var after := accounts[k := a.(isActive := false)];
      forall c | c in after && c.code == a.code ensures !c.isActive {
        var j :| 0 <= j < |after| && after[j] == c;
        assert j == k;
      }
      ReplaceKeepsBalances(accounts, entries, k, a.(isActive := false));
    } else {
      RemoveKeepsBalances(accounts, entries, k);
      var after := accounts[..k] + accounts[k + 1..];
      forall c | c in after ensures c.code != a.code {
        var j :| 0 <= j < |after| && after[j] == c;
        var j' := if j < k then j else j + 1;
        assert accounts[j'] == c;
      }
    }
  }

  /** Removing an account no line names leaves every balance as it was: the
      removed id had balance 0 before and after. */
  lemma RemoveKeepsBalances(accounts: seq<Account>, entries: seq<Entry>, k: nat)
    requires DistinctIds(accounts) && k < |accounts| && !Referenced(entries, accounts[k].id)
    ensures forall id ::
      AccountBalance(accounts[..k] + accounts[k + 1..], entries, id) == AccountBalance(accounts, entries, id)
  {
    var after := accounts[..k] + accounts[k + 1..];
    var gone := accounts[k].id;
    assert DistinctIds(after) by {
      forall i, j | 0 <= i < j < |after| ensures after[i].id != after[j].id {
        var i' := if i < k then i else i + 1;
        var j' := if j < k then j else j + 1;
        assert after[i] == accounts[i'] && after[j] == accounts[j'];
      }
    }
    forall id ensures AccountBalance(after, entries, id) == AccountBalance(accounts, entries, id) {
      if id == gone {
        BalanceWithoutPostedLines(after, entries, id);
        BalanceWithoutPostedLines(accounts, entries, id);
      } else if i :| 0 <= i < |accounts| && accounts[i].id == id {
        var i' := if i < k then i else i - 1;
        assert after[i'] == accounts[i];
        AccountByOwnId(accounts, i);
        AccountByOwnId(after, i');
      } else {
        assert forall c :: c in after ==> c in accounts;
      }
    }
  }
}
