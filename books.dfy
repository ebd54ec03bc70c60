/** The book of accounts: the chart of accounts and the journal as one
    in-memory store, and the posting services of the double-entry engine as
    its methods. Each method is one atomic unit of work: either it stores one
    posted, balanced entry or it leaves the store as it was. */
module Books {
  import opened Common
  import opened Records
  import opened Ledger
  import opened Posting

  /** Chart invariant: ids strictly increase in storage order and stay below
      the next id to hand out; codes are unique. */
  ghost predicate ChartInvariant(accounts: seq<Account>, nextId: nat) {
    && (forall i, j :: 0 <= i < j < |accounts| ==> accounts[i].id < accounts[j].id)
    && (forall a :: a in accounts ==> a.id < nextId)
    && (forall i, j :: 0 <= i < j < |accounts| ==> accounts[i].code != accounts[j].code)
  }

  /** The transaction ids some stored entry is linked to. */
  function LinkedTransactionIds(entries: seq<Entry>): set<nat> {
    set e | e in entries && e.transactionId.Some? :: e.transactionId.value
  }

  /** The codes in use, active or not (`{a.code for a in db.query(Account.code)}`). */
  function CodesOf(accounts: seq<Account>): set<string> {
    set a | a in accounts :: a.code
  }

  /** Journal lines stay resolvable when every account id they could name is
      still present. */
  lemma ReferencesSurvive(lines: seq<Line>, before: seq<Account>, after: seq<Account>)
    requires LinesReferTo(lines, before)
    requires forall a :: a in before ==> exists b :: b in after && b.id == a.id
    ensures LinesReferTo(lines, after)
  {
    forall l | l in lines ensures AccountById(after, l.accountId).Some? {
      var a := AccountById(before, l.accountId).value;
      var b :| b in after && b.id == a.id;
    }
  }

  /** Position of the account with id `id` (the row `filter(Account.id == id).first()` finds). */
  function IndexById(accounts: seq<Account>, id: int): (r: Option<nat>)
    ensures r.Some? ==> r.value < |accounts| && AccountById(accounts, id) == Some(accounts[r.value])
    ensures r.None? <==> AccountById(accounts, id).None?
  {
    if accounts == [] then None
    else if accounts[0].id == id then Some(0)
    else
      var rest := IndexById(accounts[1..], id);
      if rest.Some? then Some(rest.value + 1) else None
  }

  /** Position of the journal entry with id `id`. */
  function EntryIndex(entries: seq<Entry>, id: int): (r: Option<nat>)
    ensures r.Some? ==> r.value < |entries| && entries[r.value].id == id
    ensures r.None? <==> forall e :: e in entries ==> e.id != id
  {
    if entries == [] then None
    else if entries[0].id == id then Some(0)
    else
      var rest := EntryIndex(entries[1..], id);
      if rest.Some? then Some(rest.value + 1) else None
  }

  /** Some journal line, posted or not, names account `id`. */
  predicate Referenced(entries: seq<Entry>, id: nat) {
    exists e, l :: e in entries && l in e.lines && l.accountId == id
  }

  lemma ReplaceKeepsChart(accounts: seq<Account>, nextId: nat, k: nat, a: Account)
    requires ChartInvariant(accounts, nextId)
    requires k < |accounts| && a.id == accounts[k].id && a.code == accounts[k].code
    ensures ChartInvariant(accounts[k := a], nextId)
  {
    var after := accounts[k := a];
    forall b | b in after ensures b.id < nextId {
      var i :| 0 <= i < |after| && after[i] == b;
      assert accounts[i] in accounts;
    }
  }

  lemma ReplaceKeepsReferences(entries: seq<Entry>, accounts: seq<Account>, k: nat, a: Account)
    requires forall e :: e in entries ==> LinesReferTo(e.lines, accounts)
    requires k < |accounts| && a.id == accounts[k].id
    ensures forall e :: e in entries ==> LinesReferTo(e.lines, accounts[k := a])
  {
    var after := accounts[k := a];
    forall b | b in accounts ensures exists c :: c in after && c.id == b.id {
      var i :| 0 <= i < |accounts| && accounts[i] == b;
      assert after[i] in after;
    }
    forall e | e in entries ensures LinesReferTo(e.lines, after) {
      ReferencesSurvive(e.lines, accounts, after);
    }
  }

  lemma RemoveKeepsChart(accounts: seq<Account>, nextId: nat, k: nat)
    requires ChartInvariant(accounts, nextId) && k < |accounts|
    ensures ChartInvariant(accounts[..k] + accounts[k + 1..], nextId)
  {
    var after := accounts[..k] + accounts[k + 1..];
    forall i, j | 0 <= i < j < |after|
      ensures after[i].id < after[j].id && after[i].code != after[j].code
    {
      var i' := if i < k then i else i + 1;
      var j' := if j < k then j else j + 1;
      assert after[i] == accounts[i'] && after[j] == accounts[j'];
    }
    assert forall b :: b in after ==> b in accounts;
  }

  lemma RemoveKeepsReferences(entries: seq<Entry>, accounts: seq<Account>, k: nat)
    requires forall e :: e in entries ==> LinesReferTo(e.lines, accounts)
    requires k < |accounts| && !Referenced(entries, accounts[k].id)
    ensures forall e :: e in entries ==> LinesReferTo(e.lines, accounts[..k] + accounts[k + 1..])
  {
    var after := accounts[..k] + accounts[k + 1..];
    forall e, l | e in entries && l in e.lines ensures AccountById(after, l.accountId).Some? {
      var found := AccountById(accounts, l.accountId).value;
      var i :| 0 <= i < |accounts| && accounts[i] == found;
      assert i != k;
      var i' := if i < k then i else i - 1;
      assert after[i'] == accounts[i];
    }
  }

  /** What the backfill adds, written over an abstract posting decision
      `posts` and entry builder `entryOf` so that its lemmas need not look
      inside the posting rules: an entry for every transaction, in order,
      whose id was not linked before the run and which posts; ids are handed
      out consecutively from `startId`. */
  function MigratedWith(txns: seq<Transaction>, existing: set<nat>, startId: nat,
                        posts: Transaction -> bool, entryOf: (Transaction, nat) -> Entry): seq<Entry>
  {
    if txns == [] then []
    else
      var prev := MigratedWith(txns[..|txns| - 1], existing, startId, posts, entryOf);
      var txn := txns[|txns| - 1];
      prev + MigrationStep(txn, existing, startId + |prev|, posts, entryOf)
  }

  /** What the backfill adds for one transaction, given the id it would get. */
  function MigrationStep(txn: Transaction, existing: set<nat>, id: nat,
                         posts: Transaction -> bool, entryOf: (Transaction, nat) -> Entry): (r: seq<Entry>)
    ensures |r| <= 1
    ensures r != [] <==> txn.id !in existing && posts(txn)
    ensures r != [] ==> r[0] == entryOf(txn, id)
  {
    if txn.id in existing || !posts(txn) then [] else [entryOf(txn, id)]
  }

  /** One more transaction extends the run by at most its own entry: if the
      journal grew by exactly what the step adds, it still equals the
      journal before the run plus the run so far. */
  lemma MigratedStep(before: seq<Entry>, current: seq<Entry>, next: seq<Entry>,
                     txns: seq<Transaction>, i: nat, existing: set<nat>, startId: nat, id: nat,
                     posts: Transaction -> bool, entryOf: (Transaction, nat) -> Entry)
    requires i < |txns|
    requires current == before + MigratedWith(txns[..i], existing, startId, posts, entryOf)
    requires id == startId + |current| - |before|
    requires next == current + MigrationStep(txns[i], existing, id, posts, entryOf)
    ensures next == before + MigratedWith(txns[..i + 1], existing, startId, posts, entryOf)
  {
    var t := txns[..i + 1];
    assert t[..|t| - 1] == txns[..i];
  }

  /** `PostsWith` / `EntryWith` are the posting decision and entry of
      `create_je_for_transaction`. */
  lemma PostsWithTransaction(accounts: seq<Account>, txn: Transaction, id: nat)
    ensures PostsWith(accounts)(txn) == TransactionPosts(accounts, txn)
    ensures TransactionPosts(accounts, txn) ==>
      EntryWith(accounts)(txn, id) == TransactionEntry(txn, id, TransactionLines(accounts, txn).value)
  {
  }

  /** After a run, every transaction is linked (before or by the run) or
      does not post, provided the builder links each entry to its transaction. */
  lemma {:induction false} MigratedCovers(txns: seq<Transaction>, existing: set<nat>, startId: nat,
                                          posts: Transaction -> bool, entryOf: (Transaction, nat) -> Entry)
    requires forall txn, id :: entryOf(txn, id).transactionId == Some(txn.id)
    ensures forall txn :: txn in txns ==>
      txn.id in existing || !posts(txn)
      || txn.id in LinkedTransactionIds(MigratedWith(txns, existing, startId, posts, entryOf))
  {
    if txns != [] {
      var prefix := txns[..|txns| - 1];
      var prev := MigratedWith(prefix, existing, startId, posts, entryOf);
      var r := MigratedWith(txns, existing, startId, posts, entryOf);
      MigratedCovers(prefix, existing, startId, posts, entryOf);
      assert txns == prefix + [txns[|txns| - 1]];
      assert LinkedTransactionIds(prev) <= LinkedTransactionIds(r);
      var txn := txns[|txns| - 1];
      if txn.id !in existing && posts(txn) {
        assert r[|r| - 1].transactionId == Some(txn.id);
      }
    }
  }

  /** A run over transactions that are all linked or do not post adds nothing. */
  lemma {:induction false} MigratedNothingLeft(txns: seq<Transaction>, existing: set<nat>, startId: nat,
                                               posts: Transaction -> bool, entryOf: (Transaction, nat) -> Entry)
    requires forall txn :: txn in txns ==> txn.id in existing || !posts(txn)
    ensures MigratedWith(txns, existing, startId, posts, entryOf) == []
  {
    if txns != [] {
      MigratedNothingLeft(txns[..|txns| - 1], existing, startId, posts, entryOf);
    }
  }

  /** The posting decision and entry builder of `create_je_for_transaction`. */
  function PostsWith(accounts: seq<Account>): Transaction -> bool {
    txn => TransactionPosts(accounts, txn)
  }

  function EntryWith(accounts: seq<Account>): (Transaction, nat) -> Entry {
    (txn: Transaction, id: nat) => TransactionEntry(txn, id, PlannedLines(accounts, txn))
  }

  /** The lines `create_je_for_transaction` would store (empty when it stops early). */
  function PlannedLines(accounts: seq<Account>, txn: Transaction): seq<Line> {
    var lines := TransactionLines(accounts, txn);
    if lines.Some? then lines.value else []
  }

  /** What `migrate_existing_transactions` adds to the journal. */
  function Migrated(accounts: seq<Account>, txns: seq<Transaction>, existing: set<nat>, startId: nat): seq<Entry> {
    MigratedWith(txns, existing, startId, PostsWith(accounts), EntryWith(accounts))
  }

  lemma LinkedOfConcat(a: seq<Entry>, b: seq<Entry>)
    ensures LinkedTransactionIds(a + b) == LinkedTransactionIds(a) + LinkedTransactionIds(b)
  {
  }

  /** Idempotence of the backfill: running it again over the same
      transactions and chart creates nothing. */
  lemma MigrateTwiceCreatesNothing(accounts: seq<Account>, txns: seq<Transaction>, entries: seq<Entry>, startId: nat, againId: nat)
    ensures var first := Migrated(accounts, txns, LinkedTransactionIds(entries), startId);
      Migrated(accounts, txns, LinkedTransactionIds(entries + first), againId) == []
  {
    var existing := LinkedTransactionIds(entries);
    var posts := PostsWith(accounts);
    var entryOf := EntryWith(accounts);
    var first := MigratedWith(txns, existing, startId, posts, entryOf);
    MigratedCovers(txns, existing, startId, posts, entryOf);
    LinkedOfConcat(entries, first);
    MigratedNothingLeft(txns, LinkedTransactionIds(entries + first), againId, posts, entryOf);
  }

  predicate BillReceivedPosts(accounts: seq<Account>, bill: Bill) {
    BillReceivedLines(accounts, bill).Some? && IsBalanced(BillReceivedLines(accounts, bill).value)
  }

  /** Once one item finds no account, the whole item list finds none. */
  lemma {:induction false} ItemLinesPrefixFails(accounts: seq<Account>, bill: Bill, items: seq<BillItem>, k: nat)
    requires k <= |items| && ItemLines(accounts, bill, items[..k]).None?
    ensures ItemLines(accounts, bill, items).None?
    decreases |items| - k
  {
    if k < |items| {
      assert items[..k + 1][..k] == items[..k];
      ItemLinesPrefixFails(accounts, bill, items, k + 1);
    } else {
      assert items[..k] == items;
    }
  }

  /** The item loop of `create_je_for_bill_received`: one debit per item,
      stopping with nothing as soon as an item finds no account. */
  method BuildItemDebits(accounts: seq<Account>, bill: Bill) returns (r: Option<seq<Line>>)
    ensures r == ItemLines(accounts, bill, bill.items)
  {
    var lines: seq<Line> := [];
    var i := 0;
    while i < |bill.items|
      invariant 0 <= i <= |bill.items|
      invariant ItemLines(accounts, bill, bill.items[..i]) == Some(lines)
    {
      var item := bill.items[i];
      ItemLinesStep(accounts, bill, bill.items, i);
      var account := ItemExpenseAccount(accounts, bill, item);
      if account.None? {
        ItemLinesPrefixFails(accounts, bill, bill.items, i + 1);
        return None;
      }
      lines := lines + [DebitLine(account.value.id, item.amount, item.description)];
      i := i + 1;
    }
    assert bill.items[..i] == bill.items;
    r := Some(lines);
  }

  /** The line building of `create_je_for_bill_received`: the payable
      account first, then the item debits (or the subtotal debit when there
      are no items), GST, and the payable credit. */
  method BuildBillReceivedLines(accounts: seq<Account>, bill: Bill) returns (r: Option<seq<Line>>)
    ensures r == BillReceivedLines(accounts, bill)
  {
    var payable := ActiveByCode(accounts, PayableCode);
    if payable.None? {
      return None;
    }
    var items := BuildItemDebits(accounts, bill);
    if items.None? {
      return None;
    }
    var lines := items.value;
    if lines == [] {
      var account := SubtotalAccount(accounts, bill);
      if account.None? {
        return None;
      }
      lines := [DebitLine(account.value.id, bill.subtotal, "Bill " + bill.billNumber)];
    }
    ghost var debits := lines;
    assert Some(debits) == ExpenseDebits(accounts, bill);
    var gst := ActiveByCode(accounts, GstReceivableCode);
    if bill.gstAmount > 0 && gst.Some? {
      lines := lines + [DebitLine(gst.value.id, bill.gstAmount, "GST on " + bill.billNumber)];
    } else {
      assert lines == debits + [];
    }
    lines := lines + [CreditLine(payable.value.id, bill.total, "Bill " + bill.billNumber)];
    r := Some(lines);
  }

  class Books {
    var accounts: seq<Account>
    var entries: seq<Entry>
    var nextAccountId: nat
    var nextEntryId: nat

    ghost predicate Valid()
      reads this
    {
      && ChartInvariant(accounts, nextAccountId)
      && LedgerInvariant(entries, nextEntryId)
      && (forall e :: e in entries ==> LinesReferTo(e.lines, accounts))
    }

    constructor ()
      ensures Valid()
      ensures accounts == [] && entries == [] && nextAccountId == 1 && nextEntryId == 1
    {
      accounts := [];
      entries := [];
      nextAccountId := 1;
      nextEntryId := 1;
    }

    /** Adds a posted entry under the next id (`db.add` + `db.flush` + the line rows). */
    method Append(e: Entry)
      requires Valid()
      requires e.id == nextEntryId && e.isPosted && e.lines != [] && IsBalanced(e.lines)
      requires LinesReferTo(e.lines, accounts)
      modifies this
      ensures Valid()
      ensures entries == old(entries) + [e] && nextEntryId == old(nextEntryId) + 1
      ensures accounts == old(accounts) && nextAccountId == old(nextAccountId)
    {
      AppendKeepsLedgerInvariant(entries, nextEntryId, e);
      entries := entries + [e];
      nextEntryId := nextEntryId + 1;
    }

    /** Adds an account under the next id (`db.add` + `db.flush`); its code
        must not be in use yet. */
    method AddAccount(a: Account)
      requires Valid()
      requires a.id == nextAccountId && a.code !in CodesOf(accounts)
      modifies this
      ensures Valid()
      ensures accounts == old(accounts) + [a] && nextAccountId == old(nextAccountId) + 1
      ensures entries == old(entries) && nextEntryId == old(nextEntryId)
    {
      var before := accounts;
      accounts := accounts + [a];
      nextAccountId := nextAccountId + 1;
      forall i, j | 0 <= i < j < |accounts| ensures accounts[i].code != accounts[j].code {
        if j == |before| {
          assert accounts[i] in before;
        }
      }
      forall e | e in entries ensures LinesReferTo(e.lines, accounts) {
        ReferencesSurvive(e.lines, before, accounts);
      }
    }

    /** Stores a changed account row in place; id and code stay as they were. */
    method ReplaceAccount(k: nat, a: Account)
      requires Valid()
      requires k < |accounts| && a.id == accounts[k].id && a.code == accounts[k].code
      modifies this
      ensures Valid()
      ensures accounts == old(accounts)[k := a] && nextAccountId == old(nextAccountId)
      ensures entries == old(entries) && nextEntryId == old(nextEntryId)
    {
      ReplaceKeepsChart(accounts, nextAccountId, k, a);
      ReplaceKeepsReferences(entries, accounts, k, a);
      accounts := accounts[k := a];
    }

    /** Deletes the account row at `k`; no journal line may name it. */
    method RemoveAccount(k: nat)
      requires Valid()
      requires k < |accounts| && !Referenced(entries, accounts[k].id)
      modifies this
      ensures Valid()
      ensures accounts == old(accounts)[..k] + old(accounts)[k + 1..] && nextAccountId == old(nextAccountId)
      ensures entries == old(entries) && nextEntryId == old(nextEntryId)
    {
      RemoveKeepsChart(accounts, nextAccountId, k);
      RemoveKeepsReferences(entries, accounts, k);
      accounts := accounts[..k] + accounts[k + 1..];
    }

    /** Deletes the entry at `k` together with its lines. */
    method RemoveEntry(k: nat)
      requires Valid() && k < |entries|
      modifies this
      ensures Valid()
      ensures entries == old(entries)[..k] + old(entries)[k + 1..] && nextEntryId == old(nextEntryId)
      ensures accounts == old(accounts) && nextAccountId == old(nextAccountId)
    {
      RemoveAtKeepsLedgerInvariant(entries, k, nextEntryId);
      assert forall e :: e in entries[..k] + entries[k + 1..] ==> e in entries;
      entries := entries[..k] + entries[k + 1..];
    }

    /** `create_je_for_transaction` */
    method CreateJeForTransaction(txn: Transaction) returns (r: Option<Entry>)
      requires Valid()
      modifies this
      ensures Valid()
      ensures accounts == old(accounts) && nextAccountId == old(nextAccountId)
      ensures TransactionPosts(accounts, txn) ==>
        && r == Some(TransactionEntry(txn, old(nextEntryId), TransactionLines(accounts, txn).value))
        && entries == old(entries) + [r.value] && nextEntryId == old(nextEntryId) + 1
      ensures !TransactionPosts(accounts, txn) ==>
        r.None? && entries == old(entries) && nextEntryId == old(nextEntryId)
    {
      var lines := TransactionLines(accounts, txn);
      if lines.Some? {
        TransactionBalancedIff(accounts, txn);
      }
      if lines.None? || !IsBalanced(lines.value) {
        return None;
      }
      var e := TransactionEntry(txn, nextEntryId, lines.value);
      Append(e);
      return Some(e);
    }

    /** `delete_je_for_transaction`: removes every entry linked to the
        transaction and returns how many there were. */
    method DeleteJeForTransaction(txnId: nat) returns (count: nat)
      requires Valid()
      modifies this
      ensures Valid()
      ensures accounts == old(accounts) && nextAccountId == old(nextAccountId) && nextEntryId == old(nextEntryId)
      ensures entries == Unlinked(old(entries), txnId)
      ensures count == |old(entries)| - |entries|
      ensures forall e :: e in entries <==> e in old(entries) && e.transactionId != Some(txnId)
    {
      var kept: seq<Entry> := [];
      var i := 0;
      while i < |entries|
        invariant 0 <= i <= |entries|
        invariant kept == Unlinked(entries[..i], txnId)
      {
        assert entries[..i + 1][..i] == entries[..i];
        if entries[i].transactionId != Some(txnId) {
          kept := kept + [entries[i]];
        }
        i := i + 1;
      }
      assert entries[..i] == entries;
      UnlinkedKeepsLedgerInvariant(entries, txnId, nextEntryId);
      count := |entries| - |kept|;
      entries := kept;
    }

    /** `create_je_for_invoice_sent` */
    method CreateJeForInvoiceSent(inv: Invoice) returns (r: Option<Entry>)
      requires Valid()
      modifies this
      ensures Valid()
      ensures accounts == old(accounts) && nextAccountId == old(nextAccountId)
      ensures var lines := InvoiceSentLines(accounts, inv);
        if lines.Some? && IsBalanced(lines.value) then
          && r == Some(InvoiceSentEntry(inv, old(nextEntryId), lines.value))
          && entries == old(entries) + [r.value] && nextEntryId == old(nextEntryId) + 1
        else
          r.None? && entries == old(entries) && nextEntryId == old(nextEntryId)
    {
      var lines := InvoiceSentLines(accounts, inv);
      if lines.None? || !IsBalanced(lines.value) {
        return None;
      }
      var e := InvoiceSentEntry(inv, nextEntryId, lines.value);
      Append(e);
      return Some(e);
    }

    /** `create_je_for_invoice_paid`: the amount defaults to the invoice
        total and the date to the paid date, then to today. */
    method CreateJeForInvoicePaid(inv: Invoice, amount: Option<int>, paymentDate: Option<Date>, today: Date)
      returns (r: Option<Entry>)
      requires Valid()
      modifies this
      ensures Valid()
      ensures accounts == old(accounts) && nextAccountId == old(nextAccountId)
      ensures var lines := InvoicePaidLines(accounts, inv, amount);
        if lines.Some? then
          && r == Some(InvoicePaidEntry(inv, old(nextEntryId), InvoicePaymentDate(paymentDate, inv, today), lines.value))
          && entries == old(entries) + [r.value] && nextEntryId == old(nextEntryId) + 1
        else
          r.None? && entries == old(entries) && nextEntryId == old(nextEntryId)
    {
      var lines := InvoicePaidLines(accounts, inv, amount);
      if lines.None? {
        return None;
      }
      var e := InvoicePaidEntry(inv, nextEntryId, InvoicePaymentDate(paymentDate, inv, today), lines.value);
      Append(e);
      return Some(e);
    }

    /** `create_manual_journal_entry`: the balance check comes first, so an
        empty list (which balances) fails on the second check. The lines'
        accounts must exist, which the line foreign key demands. */
    method CreateManualJournalEntry(date: Date, description: string, lines: seq<Line>, notes: Option<string>)
      returns (r: Result<Entry, string>)
      requires Valid()
      requires LinesReferTo(lines, accounts)
      modifies this
      ensures Valid()
      ensures accounts == old(accounts) && nextAccountId == old(nextAccountId)
      ensures !IsBalanced(lines) ==> r == Err("Journal entry is not balanced: total debits must equal total credits")
      ensures IsBalanced(lines) && lines == [] ==> r == Err("Journal entry must have at least one line")
      ensures r.Err? ==> entries == old(entries) && nextEntryId == old(nextEntryId)
      ensures r.Ok? <==> IsBalanced(lines) && lines != []
      ensures r.Ok? ==>
        && r.value == ManualEntry(old(nextEntryId), date, description, notes, lines)
        && entries == old(entries) + [r.value] && nextEntryId == old(nextEntryId) + 1
    {
      if !IsBalanced(lines) {
        return Err("Journal entry is not balanced: total debits must equal total credits");
      }
      if lines == [] {
        return Err("Journal entry must have at least one line");
      }
      var e := ManualEntry(nextEntryId, date, description, notes, lines);
      Append(e);
      return Ok(e);
    }

    /** One pass of the backfill loop: a transaction whose id was linked
        before the run is skipped, any other goes through
        `create_je_for_transaction`. */
    method MigrateOne(txn: Transaction, existing: set<nat>) returns (added: bool)
      requires Valid()
      modifies this
      ensures Valid()
      ensures accounts == old(accounts) && nextAccountId == old(nextAccountId)
      ensures entries == old(entries) + MigrationStep(txn, existing, old(nextEntryId), PostsWith(accounts), EntryWith(accounts))
      ensures added ==> |entries| == |old(entries)| + 1 && nextEntryId == old(nextEntryId) + 1
      ensures !added ==> entries == old(entries) && nextEntryId == old(nextEntryId)
    {
      PostsWithTransaction(accounts, txn, nextEntryId);
      added := false;
      if txn.id !in existing {
        var je := CreateJeForTransaction(txn);
        added := je.Some?;
      }
    }

    /** `migrate_existing_transactions`: the linked ids are read once, then
        every unlinked transaction goes through `create_je_for_transaction`. */
    method MigrateExistingTransactions(txns: seq<Transaction>) returns (created: nat)
      requires Valid()
      modifies this
      ensures Valid()
      ensures accounts == old(accounts) && nextAccountId == old(nextAccountId)
      ensures entries == old(entries) + Migrated(accounts, txns, LinkedTransactionIds(old(entries)), old(nextEntryId))
      ensures created == |entries| - |old(entries)| && nextEntryId == old(nextEntryId) + created
    {
      var existing := LinkedTransactionIds(entries);
      ghost var posts := PostsWith(accounts);
      ghost var entryOf := EntryWith(accounts);
      created := 0;
      var i := 0;
      while i < |txns|
        invariant 0 <= i <= |txns|
        invariant Valid()
        invariant accounts == old(accounts) && nextAccountId == old(nextAccountId)
        invariant entries == old(entries) + MigratedWith(txns[..i], existing, old(nextEntryId), posts, entryOf)
        invariant created == |entries| - |old(entries)| && nextEntryId == old(nextEntryId) + created
      {
        ghost var current := entries;
        ghost var id := nextEntryId;
        var added := MigrateOne(txns[i], existing);
        if added {
          created := created + 1;
        }
        MigratedStep(old(entries), current, entries, txns, i, existing, old(nextEntryId), id, posts, entryOf);
        i := i + 1;
      }
      assert txns[..i] == txns;
    }

    /** `create_je_for_bill_received`: one debit per item (item account,
        else bill account, else 5950, with 5950 again as the fallback), the
        subtotal when there are no items, GST, and the payable credit. */
    method CreateJeForBillReceived(bill: Bill) returns (r: Option<Entry>)
      requires Valid()
      modifies this
      ensures Valid()
      ensures accounts == old(accounts) && nextAccountId == old(nextAccountId)
      ensures BillReceivedPosts(accounts, bill) ==>
        && r == Some(BillReceivedEntry(bill, old(nextEntryId), BillReceivedLines(accounts, bill).value))
        && entries == old(entries) + [r.value] && nextEntryId == old(nextEntryId) + 1
      ensures !BillReceivedPosts(accounts, bill) ==>
        r.None? && entries == old(entries) && nextEntryId == old(nextEntryId)
    {
      var built := BuildBillReceivedLines(accounts, bill);
      if built.None? || !IsBalanced(built.value) {
        return None;
      }
      var e := BillReceivedEntry(bill, nextEntryId, built.value);
      Append(e);
      return Some(e);
    }

    /** `create_je_for_bill_payment` */
    method CreateJeForBillPayment(bill: Bill, payment: BillPayment) returns (r: Option<Entry>)
      requires Valid()
      modifies this
      ensures Valid()
      ensures accounts == old(accounts) && nextAccountId == old(nextAccountId)
      ensures var lines := BillPaymentLines(accounts, bill, payment);
        if lines.Some? then
          && r == Some(BillPaymentEntry(bill, payment, old(nextEntryId), lines.value))
          && entries == old(entries) + [r.value] && nextEntryId == old(nextEntryId) + 1
        else
          r.None? && entries == old(entries) && nextEntryId == old(nextEntryId)
    {
      var lines := BillPaymentLines(accounts, bill, payment);
      if lines.None? {
        return None;
      }
      var e := BillPaymentEntry(bill, payment, nextEntryId, lines.value);
      Append(e);
      return Some(e);
    }
  }
}
