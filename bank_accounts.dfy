/** Bank accounts and their imported statement lines: creation, listing,
    update, CSV import with de-duplication, balance recalculation and
    reconciliation. Amounts are in cents. */
module BankAccountsApi {
  import opened Common
  import opened Text
  import opened Records
  import opened Ledger
  import opened Ordering
  import opened BankImport

  const BankAccountNotFound := HttpError(404, "Bank account not found")
  const TransactionNotFound := HttpError(404, "Transaction not found")
  const GlAccountNotFound := HttpError(400, "GL account not found")

  const AccountTypes: seq<string> := ["chequing", "savings", "credit_card"]

  /** `BankAccountCreate`; the defaulted fields are filled in. */
  datatype BankAccountCreate = BankAccountCreate(
    name: string,
    institution: Option<string>,
    last4: Option<string>,
    accountType: string,
    currency: string,
    glAccountId: Option<int>,
    openingBalance: int)

  /** `BankAccountUpdate`: `None` leaves a field as it is. */
  datatype BankAccountUpdate = BankAccountUpdate(
    name: Option<string>,
    institution: Option<string>,
    last4: Option<string>,
    accountType: Option<string>,
    glAccountId: Option<int>,
    isActive: Option<bool>)

  predicate CreateWellFormed(data: BankAccountCreate) {
    && 1 <= |data.name| <= 200
    && MaxLength(data.institution, 100)
    && MaxLength(data.last4, 4)
    && data.accountType in AccountTypes
    && |data.currency| <= 3
  }

  predicate UpdateWellFormed(data: BankAccountUpdate) {
    MaxLength(data.name, 200) && MaxLength(data.institution, 100) && MaxLength(data.last4, 4)
  }

  // ---- Balances ----

  /** Sum of the amounts of one bank account's transactions. */
  function AmountSum(txns: seq<BankTransaction>, bankAccountId: int): int {
    if txns == [] then 0
    else
      var t := txns[|txns| - 1];
      AmountSum(txns[..|txns| - 1], bankAccountId) + (if t.bankAccountId == bankAccountId then t.amount else 0)
  }

  /** Transactions of other accounts do not move an account's sum. */
  lemma {:induction false} AmountSumOthers(txns: seq<BankTransaction>, added: seq<BankTransaction>, bankAccountId: int)
    requires forall t :: t in added ==> t.bankAccountId != bankAccountId
    ensures AmountSum(txns + added, bankAccountId) == AmountSum(txns, bankAccountId)
  {
    if added != [] {
      var prefix := added[..|added| - 1];
      assert (txns + added)[..|txns + added| - 1] == txns + prefix;
      assert (txns + added)[|txns + added| - 1] == added[|added| - 1];
      assert forall t :: t in prefix ==> t in added;
      assert added[|added| - 1] in added;
      AmountSumOthers(txns, prefix, bankAccountId);
    } else {
      assert txns + added == txns;
    }
  }

  /** Changing a transaction without changing its account or amount keeps
      every account's sum. */
  lemma {:induction false} AmountSumReplace(txns: seq<BankTransaction>, k: nat, t: BankTransaction, bankAccountId: int)
    requires k < |txns| && t.bankAccountId == txns[k].bankAccountId && t.amount == txns[k].amount
    ensures AmountSum(txns[k := t], bankAccountId) == AmountSum(txns, bankAccountId)
  {
    if k < |txns| - 1 {
      assert txns[k := t][..|txns| - 1] == txns[..|txns| - 1][k := t];
      AmountSumReplace(txns[..|txns| - 1], k, t, bankAccountId);
    } else {
      assert txns[k := t][..|txns| - 1] == txns[..|txns| - 1];
    }
  }

  /** The stored balance is the opening balance plus the account's
      transactions (`_recalculate_balance`'s formula). */
  ghost predicate BalanceAgrees(a: BankAccount, txns: seq<BankTransaction>) {
    a.currentBalance == a.openingBalance + AmountSum(txns, a.id)
  }

  // ---- Import de-duplication ----

  /** The parsed rows the import stores: a row is skipped when its hash is
      already stored for the account or appeared earlier in the file. */
  function NewRows(parsed: seq<ImportedRow>, seen: set<ImportHash>): (r: seq<ImportedRow>)
    ensures |r| <= |parsed|
    ensures forall x :: x in r ==> x in parsed && x.importHash !in seen
  {
    if parsed == [] then []
    else if parsed[0].importHash in seen then NewRows(parsed[1..], seen)
    else [parsed[0]] + NewRows(parsed[1..], seen + {parsed[0].importHash})
  }

  function HashesOf(rows: seq<ImportedRow>): set<ImportHash> {
    set r | r in rows :: r.importHash
  }

  lemma HashesOfCons(rows: seq<ImportedRow>)
    requires rows != []
    ensures HashesOf(rows) == {rows[0].importHash} + HashesOf(rows[1..])
  {
    assert forall r :: r in rows <==> r == rows[0] || r in rows[1..];
  }

  /** After an import every hash of the file is stored: it was either known
      before or is the hash of a stored row. */
  lemma {:induction false} NewRowsCover(parsed: seq<ImportedRow>, seen: set<ImportHash>)
    ensures HashesOf(parsed) <= seen + HashesOf(NewRows(parsed, seen))
  {
    if parsed != [] {
      var rest := parsed[1..];
      var h := parsed[0].importHash;
      HashesOfCons(parsed);
      if h in seen {
        NewRowsCover(rest, seen);
        assert NewRows(parsed, seen) == NewRows(rest, seen);
      } else {
        NewRowsCover(rest, seen + {h});
        var stored := NewRows(parsed, seen);
        assert stored == [parsed[0]] + NewRows(rest, seen + {h});
        HashesOfCons(stored);
        assert stored[1..] == NewRows(rest, seen + {h});
      }
    }
  }

  predicate HashesDistinct(rows: seq<ImportedRow>) {
    forall i, j :: 0 <= i < j < |rows| ==> rows[i].importHash != rows[j].importHash
  }

  /** The stored rows have distinct hashes. */
  lemma {:induction false} NewRowsDistinct(parsed: seq<ImportedRow>, seen: set<ImportHash>)
    ensures HashesDistinct(NewRows(parsed, seen))
  {
    if parsed != [] && parsed[0].importHash !in seen {
      var h := parsed[0].importHash;
      NewRowsDistinct(parsed[1..], seen + {h});
      var r := NewRows(parsed, seen);
      var rest := NewRows(parsed[1..], seen + {h});
      assert r == [parsed[0]] + rest;
      forall i, j | 0 <= i < j < |r| ensures r[i].importHash != r[j].importHash {
        assert r[j] == rest[j - 1] && rest[j - 1] in rest;
        if i > 0 {
          assert r[i] == rest[i - 1];
        }
      }
    } else if parsed != [] {
      NewRowsDistinct(parsed[1..], seen);
      assert NewRows(parsed, seen) == NewRows(parsed[1..], seen);
    }
  }

  /** A file whose hashes are all stored imports nothing: importing the same
      file twice stores its rows once. */
  lemma {:induction false} ReimportStoresNothing(parsed: seq<ImportedRow>, seen: set<ImportHash>)
    requires HashesOf(parsed) <= seen
    ensures NewRows(parsed, seen) == []
  {
    if parsed != [] {
      assert parsed[0] in parsed;
      assert HashesOf(parsed[1..]) <= HashesOf(parsed) by {
        forall r | r in parsed[1..] ensures r in parsed {
        }
      }
      ReimportStoresNothing(parsed[1..], seen);
    }
  }

  /** Importing a file and then importing it again stores nothing the
      second time. */
  lemma ImportTwiceStoresOnce(txns: seq<BankTransaction>, bankAccountId: nat, firstId: nat, parsed: seq<ImportedRow>)
    ensures var seen := StoredHashes(txns, bankAccountId);
      var after := txns + Stored(bankAccountId, firstId, NewRows(parsed, seen));
      NewRows(parsed, StoredHashes(after, bankAccountId)) == []
  {
    var seen := StoredHashes(txns, bankAccountId);
    var rows := NewRows(parsed, seen);
    var added := Stored(bankAccountId, firstId, rows);
    var after := txns + added;
    NewRowsCover(parsed, seen);
    forall h | h in seen + HashesOf(rows) ensures h in StoredHashes(after, bankAccountId) {
      if h in seen {
        var t :| t in txns && t.bankAccountId == bankAccountId && t.importHash == h;
        assert t in after;
      } else {
        var row :| row in rows && row.importHash == h;
        var i :| 0 <= i < |rows| && rows[i] == row;
        assert added[i] in after;
      }
    }
    ReimportStoresNothing(parsed, StoredHashes(after, bankAccountId));
  }

  /** The stored transaction of a parsed row. */
  function NewTransaction(bankAccountId: nat, id: nat, row: ImportedRow): BankTransaction {
    BankTransaction(id, bankAccountId, row.date, row.description, row.amount, row.balance, row.reference, false, None, row.importHash)
  }

  function Stored(bankAccountId: nat, firstId: nat, rows: seq<ImportedRow>): (r: seq<BankTransaction>)
    ensures |r| == |rows|
    ensures forall i :: 0 <= i < |rows| ==> r[i] == NewTransaction(bankAccountId, firstId + i, rows[i])
    ensures forall t :: t in r ==> t.bankAccountId == bankAccountId
  {
    seq(|rows|, i requires 0 <= i < |rows| => NewTransaction(bankAccountId, firstId + i, rows[i]))
  }

  lemma NewRowsStep(parsed: seq<ImportedRow>, i: nat, seen: set<ImportHash>)
    requires i < |parsed|
    ensures NewRows(parsed[i..], seen) ==
      if parsed[i].importHash in seen then NewRows(parsed[i + 1..], seen)
      else [parsed[i]] + NewRows(parsed[i + 1..], seen + {parsed[i].importHash})
  {
    assert parsed[i..][0] == parsed[i] && parsed[i..][1..] == parsed[i + 1..];
  }

  /** The import loop: counts skipped rows and stages the new ones. */
  method Dedup(parsed: seq<ImportedRow>, existing: set<ImportHash>, bankAccountId: nat, firstId: nat)
    returns (added: seq<BankTransaction>, imported: nat, skipped: nat)
    ensures added == Stored(bankAccountId, firstId, NewRows(parsed, existing))
    ensures imported == |added| && imported + skipped == |parsed|
  {
    var hashes := existing;
    added, imported, skipped := [], 0, 0;
    ghost var rows: seq<ImportedRow> := [];
    for i := 0 to |parsed|
      invariant rows + NewRows(parsed[i..], hashes) == NewRows(parsed, existing)
      invariant |added| == |rows| == imported && imported + skipped == i
      invariant forall k :: 0 <= k < |rows| ==> added[k] == NewTransaction(bankAccountId, firstId + k, rows[k])
    {
      var row := parsed[i];
      NewRowsStep(parsed, i, hashes);
      if row.importHash in hashes {
        skipped := skipped + 1;
      } else {
        added := added + [NewTransaction(bankAccountId, firstId + imported, row)];
        assert (rows + [row]) + NewRows(parsed[i + 1..], hashes + {row.importHash}) == rows + NewRows(parsed[i..], hashes);
        rows := rows + [row];
        hashes := hashes + {row.importHash};
        imported := imported + 1;
      }
    }
    assert parsed[|parsed|..] == [];
  }

  // ---- Listing ----

  predicate ByName(a: BankAccount, b: BankAccount) {
    StrLe(a.name, b.name)
  }

  lemma ByNameIsPreorder()
    ensures TotalPreorder(ByName)
  {
    forall a: BankAccount, b: BankAccount ensures ByName(a, b) || ByName(b, a) {
      StrLeTotal(a.name, b.name);
    }
    forall a: BankAccount, b: BankAccount, c: BankAccount | ByName(a, b) && ByName(b, c) ensures ByName(a, c) {
      StrLeTransitive(a.name, b.name, c.name);
    }
  }

  /** Newest first: later date, then higher id. */
  predicate NewestFirst(a: BankTransaction, b: BankTransaction) {
    if a.date == b.date then a.id >= b.id else DateLe(b.date, a.date)
  }

  lemma NewestFirstIsPreorder()
    ensures TotalPreorder(NewestFirst)
  {
    forall a: BankTransaction, b: BankTransaction ensures NewestFirst(a, b) || NewestFirst(b, a) {
      DateLeTotal(a.date, b.date);
    }
    forall a: BankTransaction, b: BankTransaction, c: BankTransaction | NewestFirst(a, b) && NewestFirst(b, c)
      ensures NewestFirst(a, c)
    {
      DateLeTotal(a.date, b.date);
      DateLeTotal(b.date, c.date);
      DateLeTotal(a.date, c.date);
      DateLeTransitive(c.date, b.date, a.date);
    }
  }

  /** The filters of `list_bank_transactions`. */
  predicate TxnMatches(t: BankTransaction, bankAccountId: int, reconciled: Option<bool>, start: Option<Date>, end: Option<Date>) {
    && t.bankAccountId == bankAccountId
    && (reconciled.Some? ==> t.isReconciled == reconciled.value)
    && (start.Some? ==> DateLe(start.value, t.date))
    && (end.Some? ==> DateLe(t.date, end.value))
  }

  function MatchingTxns(txns: seq<BankTransaction>, bankAccountId: int, reconciled: Option<bool>, start: Option<Date>, end: Option<Date>)
    : (r: seq<BankTransaction>)
    ensures forall t :: t in r <==> t in txns && TxnMatches(t, bankAccountId, reconciled, start, end)
  {
    if txns == [] then []
    else
      var t := txns[|txns| - 1];
      assert forall x :: x in txns <==> x in txns[..|txns| - 1] || x == t;
      MatchingTxns(txns[..|txns| - 1], bankAccountId, reconciled, start, end)
        + (if TxnMatches(t, bankAccountId, reconciled, start, end) then [t] else [])
  }

  const TxnPageCap := 200

  // ---- The store ----

  predicate AccountIdsIncreasing(accounts: seq<BankAccount>) {
    forall i, j :: 0 <= i < j < |accounts| ==> accounts[i].id < accounts[j].id
  }

  function AccountIndex(accounts: seq<BankAccount>, id: int): (r: Option<nat>)
    ensures r.Some? ==> r.value < |accounts| && accounts[r.value].id == id
    ensures r.None? <==> forall a :: a in accounts ==> a.id != id
  {
    if accounts == [] then None
    else if accounts[0].id == id then Some(0)
    else
      var rest := AccountIndex(accounts[1..], id);
      if rest.Some? then Some(rest.value + 1) else None
  }

  /** The transaction with id `txnId` that belongs to `bankAccountId`. */
  function TxnIndex(txns: seq<BankTransaction>, bankAccountId: int, txnId: int): (r: Option<nat>)
    ensures r.Some? ==> r.value < |txns| && txns[r.value].id == txnId && txns[r.value].bankAccountId == bankAccountId
    ensures r.None? <==> forall t :: t in txns ==> !(t.id == txnId && t.bankAccountId == bankAccountId)
  {
    if txns == [] then None
    else if txns[0].id == txnId && txns[0].bankAccountId == bankAccountId then Some(0)
    else
      var rest := TxnIndex(txns[1..], bankAccountId, txnId);
      if rest.Some? then Some(rest.value + 1) else None
  }

  /** The import's summary: `imported + skipped` is the number of parsed rows. */
  datatype ImportResult = ImportResult(message: string, imported: nat, skipped: nat, totalInFile: nat, newBalance: int)

  class BankStore {
    var accounts: seq<BankAccount>
    var transactions: seq<BankTransaction>
    var nextAccountId: nat
    var nextTxnId: nat

    /** Ids increase and stay below the next ids, every transaction belongs
        to a stored account, and every balance is its opening balance plus
        its transactions. */
    ghost predicate Valid()
      reads this
    {
      && AccountIdsIncreasing(accounts)
      && (forall a :: a in accounts ==> a.id < nextAccountId && BalanceAgrees(a, transactions))
      && (forall t :: t in transactions ==> t.id < nextTxnId && t.bankAccountId < nextAccountId)
    }

    constructor ()
      ensures Valid() && accounts == [] && transactions == []
    {
      accounts, transactions := [], [];
      nextAccountId, nextTxnId := 1, 1;
    }

    /** `create_bank_account`: a new account's balance is its opening balance. */
    method CreateBankAccount(gl: seq<Account>, data: BankAccountCreate) returns (r: Result<nat, HttpError>)
      requires Valid()
      modifies this
      ensures Valid() && transactions == old(transactions)
      ensures !CreateWellFormed(data) ==> r == Err(ValidationError)
      ensures CreateWellFormed(data) && Truthy(data.glAccountId) && AccountById(gl, data.glAccountId.value).None? ==>
        r == Err(GlAccountNotFound)
      ensures r.Ok? <==> CreateWellFormed(data) && !(Truthy(data.glAccountId) && AccountById(gl, data.glAccountId.value).None?)
      ensures r.Err? ==> accounts == old(accounts)
      ensures r.Ok? ==>
        && r.value == old(nextAccountId)
        && accounts == old(accounts) + [BankAccount(r.value, data.name, data.institution, data.last4, data.accountType,
                                                     data.currency, data.glAccountId, data.openingBalance, data.openingBalance, true)]
    {
      if !CreateWellFormed(data) {
        return Err(ValidationError);
      }
      if Truthy(data.glAccountId) && AccountById(gl, data.glAccountId.value).None? {
        return Err(GlAccountNotFound);
      }
      var a := BankAccount(nextAccountId, data.name, data.institution, data.last4, data.accountType, data.currency,
                           data.glAccountId, data.openingBalance, data.openingBalance, true);
      AmountSumNone(transactions, nextAccountId);
      accounts := accounts + [a];
      r := Ok(nextAccountId);
      nextAccountId := nextAccountId + 1;
    }

    /** `list_bank_accounts`: all accounts, ordered by name. */
    function ListBankAccounts(): (r: seq<BankAccount>)
      reads this
      ensures multiset(r) == multiset(accounts) && SortedBy(r, ByName)
    {
      ByNameIsPreorder();
      SortBySorted(accounts, ByName);
      SortBy(accounts, ByName)
    }

    /** `get_bank_account` */
    function GetBankAccount(id: int): (r: Result<BankAccount, HttpError>)
      reads this
      ensures r.Err? <==> forall a :: a in accounts ==> a.id != id
      ensures r.Err? ==> r.error == BankAccountNotFound
      ensures r.Ok? ==> r.value in accounts && r.value.id == id
    {
      var k := AccountIndex(accounts, id);
      if k.None? then Err(BankAccountNotFound) else Ok(accounts[k.value])
    }

    /** `update_bank_account`: given fields replace the stored ones; a GL
        account id must name an existing account. */
    method UpdateBankAccount(gl: seq<Account>, id: int, data: BankAccountUpdate) returns (r: Result<(), HttpError>)
      requires Valid()
      modifies this
      ensures Valid() && transactions == old(transactions)
      ensures !UpdateWellFormed(data) ==> r == Err(ValidationError)
      ensures UpdateWellFormed(data) && AccountIndex(old(accounts), id).None? ==> r == Err(BankAccountNotFound)
      ensures (UpdateWellFormed(data) && AccountIndex(old(accounts), id).Some?
               && data.glAccountId.Some? && AccountById(gl, data.glAccountId.value).None?) ==> r == Err(GlAccountNotFound)
      ensures r.Ok? <==>
        && UpdateWellFormed(data) && AccountIndex(old(accounts), id).Some?
        && !(data.glAccountId.Some? && AccountById(gl, data.glAccountId.value).None?)
      ensures r.Err? ==> accounts == old(accounts)
      ensures r.Ok? ==>
        var k := AccountIndex(old(accounts), id).value;
        var a := old(accounts)[k];
        accounts == old(accounts)[k := a.(
          name := if data.name.Some? then data.name.value else a.name,
          institution := if data.institution.Some? then data.institution else a.institution,
          last4 := if data.last4.Some? then data.last4 else a.last4,
          accountType := if data.accountType.Some? then data.accountType.value else a.accountType,
          glAccountId := if data.glAccountId.Some? then data.glAccountId else a.glAccountId,
          isActive := if data.isActive.Some? then data.isActive.value else a.isActive)]
    {
      if !UpdateWellFormed(data) {
        return Err(ValidationError);
      }
      var k := AccountIndex(accounts, id);
      if k.None? {
        return Err(BankAccountNotFound);
      }
      if data.glAccountId.Some? && AccountById(gl, data.glAccountId.value).None? {
        return Err(GlAccountNotFound);
      }
      var a := accounts[k.value];
      var updated := a.(
        name := if data.name.Some? then data.name.value else a.name,
        institution := if data.institution.Some? then data.institution else a.institution,
        last4 := if data.last4.Some? then data.last4 else a.last4,
        accountType := if data.accountType.Some? then data.accountType.value else a.accountType,
        glAccountId := if data.glAccountId.Some? then data.glAccountId else a.glAccountId,
        isActive := if data.isActive.Some? then data.isActive.value else a.isActive);
      SetAccount(k.value, updated);
      return Ok(());
    }

    /** `import_csv`. `records` is the upload decoded into CSV records, or
        `None` when decoding or CSV reading fails. */
    method ImportCsv(p: Parsers, id: int, filename: string, contentLength: nat, records: Option<seq<seq<string>>>)
      returns (r: Result<ImportResult, HttpError>)
      requires Valid()
      modifies this
      ensures Valid()
      ensures AccountIndex(old(accounts), id).None? ==> r == Err(BankAccountNotFound)
      ensures AccountIndex(old(accounts), id).Some? && !EndsWith(Lower(filename), ".csv") ==>
        r == Err(HttpError(400, "Only CSV files are supported"))
      ensures AccountIndex(old(accounts), id).Some? && EndsWith(Lower(filename), ".csv") && contentLength > 5000000 ==>
        r == Err(HttpError(400, "File too large (max 5MB)"))
      ensures r.Err? ==> accounts == old(accounts) && transactions == old(transactions)
      ensures r.Ok? ==> records.Some?
      ensures r.Ok? && records.Some? ==>
        var k := AccountIndex(old(accounts), id).value;
        var parsed := BankCsv(p, records.value);
        var rows := NewRows(parsed, StoredHashes(old(transactions), id));
        && EndsWith(Lower(filename), ".csv") && contentLength <= 5000000 && parsed != []
        && transactions == old(transactions) + Stored(id, old(nextTxnId), rows)
        && r.value.imported == |rows| && r.value.imported + r.value.skipped == r.value.totalInFile == |parsed|
        && accounts == old(accounts)[k := old(accounts)[k].(currentBalance := r.value.newBalance)]
        && r.value.newBalance == old(accounts)[k].openingBalance + AmountSum(transactions, id)
      ensures AccountIndex(old(accounts), id).Some? && EndsWith(Lower(filename), ".csv") && contentLength <= 5000000 ==>
        if records.None? then r == Err(HttpError(400, "Failed to parse CSV file. Check the format."))
        else if BankCsv(p, records.value) == [] then
          r == Err(HttpError(400, "No transactions found in CSV. Check headers and date format."))
        else r.Ok?
    {
      var k := AccountIndex(accounts, id);
      if k.None? {
        return Err(BankAccountNotFound);
      }
      if !EndsWith(Lower(filename), ".csv") {
        return Err(HttpError(400, "Only CSV files are supported"));
      }
      if contentLength > 5000000 {
        return Err(HttpError(400, "File too large (max 5MB)"));
      }
      if records.None? {
        return Err(HttpError(400, "Failed to parse CSV file. Check the format."));
      }
      var parsed := ParseBankCsv(p, records.value);
      if parsed == [] {
        return Err(HttpError(400, "No transactions found in CSV. Check headers and date format."));
      }
      var added, imported, skipped := Dedup(parsed, StoredHashes(transactions, id), accounts[k.value].id, nextTxnId);
      var balance := StoreImport(k.value, added);
      var message := "Imported " + NatToString(imported) + " transactions, skipped " + NatToString(skipped) + " duplicates";
      return Ok(ImportResult(message, imported, skipped, |parsed|, balance));
    }

    /** `list_bank_transactions`: matching transactions newest first, at most
        200 per page, with the count of all matches. */
    function ListBankTransactions(id: int, skip: nat, limit: nat, reconciled: Option<bool>, start: Option<Date>, end: Option<Date>)
      : (r: Result<(nat, seq<BankTransaction>), HttpError>)
      reads this
      ensures r.Err? <==> AccountIndex(accounts, id).None?
      ensures r.Ok? ==>
        var matching := MatchingTxns(transactions, id, reconciled, start, end);
        && r.value.0 == |matching|
        && |r.value.1| <= TxnPageCap && |r.value.1| <= limit
        && (forall t :: t in r.value.1 ==> t in transactions && TxnMatches(t, id, reconciled, start, end))
        && SortedBy(r.value.1, NewestFirst)
    {
      var k := AccountIndex(accounts, id);
      if k.None? then Err(BankAccountNotFound)
      else
        var matching := MatchingTxns(transactions, id, reconciled, start, end);
        var ordered := SortBy(matching, NewestFirst);
        var page := Page(ordered, skip, if limit < TxnPageCap then limit else TxnPageCap);
        PageOfSorted(matching, skip, if limit < TxnPageCap then limit else TxnPageCap);
        Ok((|matching|, page))
    }

    /** `reconcile_transaction`: marks the line reconciled and links the
        journal entry when one is given. */
    method Reconcile(bankAccountId: int, txnId: int, journalEntryId: Option<int>) returns (r: Result<string, HttpError>)
      requires Valid()
      modifies this
      ensures Valid() && accounts == old(accounts)
      ensures TxnIndex(old(transactions), bankAccountId, txnId).None? ==>
        r == Err(TransactionNotFound) && transactions == old(transactions)
      ensures TxnIndex(old(transactions), bankAccountId, txnId).Some? ==>
        var k := TxnIndex(old(transactions), bankAccountId, txnId).value;
        var t := old(transactions)[k];
        && r == Ok("Transaction reconciled")
        && transactions == old(transactions)[k := t.(isReconciled := true,
                                                     journalEntryId := if Truthy(journalEntryId) then journalEntryId else t.journalEntryId)]
    {
      var k := TxnIndex(transactions, bankAccountId, txnId);
      if k.None? {
        return Err(TransactionNotFound);
      }
      var t := transactions[k.value];
      SetTransaction(k.value, t.(isReconciled := true, journalEntryId := if Truthy(journalEntryId) then journalEntryId else t.journalEntryId));
      return Ok("Transaction reconciled");
    }

    /** `unreconcile_transaction`: clears the mark and the journal link. */
    method Unreconcile(bankAccountId: int, txnId: int) returns (r: Result<string, HttpError>)
      requires Valid()
      modifies this
      ensures Valid() && accounts == old(accounts)
      ensures TxnIndex(old(transactions), bankAccountId, txnId).None? ==>
        r == Err(TransactionNotFound) && transactions == old(transactions)
      ensures TxnIndex(old(transactions), bankAccountId, txnId).Some? ==>
        var k := TxnIndex(old(transactions), bankAccountId, txnId).value;
        && r == Ok("Transaction unreconciled")
        && transactions == old(transactions)[k := old(transactions)[k].(isReconciled := false, journalEntryId := None)]
    {
      var k := TxnIndex(transactions, bankAccountId, txnId);
      if k.None? {
        return Err(TransactionNotFound);
      }
      var t := transactions[k.value];
      SetTransaction(k.value, t.(isReconciled := false, journalEntryId := None));
      return Ok("Transaction unreconciled");
    }

    /** `_recalculate_balance`: a missing account is ignored; otherwise the
        balance becomes opening balance plus the account's transactions. */
    method RecalculateBalance(id: int)
      requires Valid()
      modifies this
      ensures Valid() && transactions == old(transactions)
      ensures AccountIndex(old(accounts), id).None? ==> accounts == old(accounts)
      ensures AccountIndex(old(accounts), id).Some? ==>
        var k := AccountIndex(old(accounts), id).value;
        var a := old(accounts)[k];
        accounts == old(accounts)[k := a.(currentBalance := a.openingBalance + AmountSum(transactions, a.id))]
    {
      var k := AccountIndex(accounts, id);
      if k.None? {
        return;
      }
      var a := accounts[k.value];
      SetAccount(k.value, a.(currentBalance := a.openingBalance + AmountSum(transactions, a.id)));
    }

    /** Stores a changed account whose balance agrees with its transactions. */
    method SetAccount(k: nat, a: BankAccount)
      requires k < |accounts| && a.id == accounts[k].id && BalanceAgrees(a, transactions)
      requires AccountIdsIncreasing(accounts)
      requires forall b :: b in accounts ==> b.id < nextAccountId
      requires forall i :: 0 <= i < |accounts| && i != k ==> BalanceAgrees(accounts[i], transactions)
      requires forall t :: t in transactions ==> t.id < nextTxnId && t.bankAccountId < nextAccountId
      modifies this
      ensures Valid()
      ensures accounts == old(accounts)[k := a] && transactions == old(transactions)
      ensures nextAccountId == old(nextAccountId) && nextTxnId == old(nextTxnId)
    {
      accounts := accounts[k := a];
      forall b | b in accounts ensures b.id < nextAccountId && BalanceAgrees(b, transactions) {
        var i :| 0 <= i < |accounts| && accounts[i] == b;
        assert i != k ==> old(accounts)[i] in old(accounts);
      }
    }

    /** Stores a changed transaction that keeps its account and amount. */
    method SetTransaction(k: nat, t: BankTransaction)
      requires Valid() && k < |transactions| && t.id == transactions[k].id
      requires t.bankAccountId == transactions[k].bankAccountId && t.amount == transactions[k].amount
      modifies this
      ensures Valid()
      ensures transactions == old(transactions)[k := t] && accounts == old(accounts)
    {
      forall a | a in accounts ensures BalanceAgrees(a, transactions[k := t]) {
        AmountSumReplace(transactions, k, t, a.id);
      }
      assert transactions[k] in transactions;
      transactions := transactions[k := t];
    }

    /** Stores an import's new transactions for account `k` and brings its
        balance up to date. */
    method StoreImport(k: nat, added: seq<BankTransaction>) returns (balance: int)
      requires Valid() && k < |accounts|
      requires forall t :: t in added ==> t.bankAccountId == accounts[k].id
      requires forall i :: 0 <= i < |added| ==> added[i].id == nextTxnId + i
      modifies this
      ensures Valid()
      ensures transactions == old(transactions) + added
      ensures balance == old(accounts)[k].openingBalance + AmountSum(transactions, old(accounts)[k].id)
      ensures accounts == old(accounts)[k := old(accounts)[k].(currentBalance := balance)]
    {
      var a := accounts[k];
      forall i | 0 <= i < |accounts| && i != k ensures BalanceAgrees(accounts[i], transactions + added) {
        assert accounts[i] in accounts;
        AmountSumOthers(transactions, added, accounts[i].id);
      }
      assert a in accounts;
      transactions := transactions + added;
      nextTxnId := nextTxnId + |added|;
      balance := a.openingBalance + AmountSum(transactions, a.id);
      SetAccount(k, a.(currentBalance := balance));
    }
  }

  /** The import hashes already stored for an account. */
  function StoredHashes(txns: seq<BankTransaction>, bankAccountId: int): set<ImportHash> {
    set t | t in txns && t.bankAccountId == bankAccountId :: t.importHash
  }

  lemma {:induction false} AmountSumNone(txns: seq<BankTransaction>, bankAccountId: int)
    requires forall t :: t in txns ==> t.bankAccountId < bankAccountId
    ensures AmountSum(txns, bankAccountId) == 0
  {
    if txns != [] {
      assert forall t :: t in txns[..|txns| - 1] ==> t in txns;
      assert txns[|txns| - 1] in txns;
      AmountSumNone(txns[..|txns| - 1], bankAccountId);
    }
  }

  lemma PageOfSorted(matching: seq<BankTransaction>, skip: nat, size: nat)
    ensures var ordered := SortBy(matching, NewestFirst);
      var page := Page(ordered, skip, size);
      && SortedBy(page, NewestFirst)
      && forall t :: t in page ==> t in matching
  {
    var ordered := SortBy(matching, NewestFirst);
    NewestFirstIsPreorder();
    SortBySorted(matching, NewestFirst);
    var page := Page(ordered, skip, size);
    forall i, j | 0 <= i < j < |page| ensures NewestFirst(page[i], page[j]) {
      assert page[i] == ordered[skip + i] && page[j] == ordered[skip + j];
    }
    forall t | t in page ensures t in matching {
      var i :| 0 <= i < |page| && page[i] == t;
      assert ordered[skip + i] in multiset(ordered);
    }
  }
}
