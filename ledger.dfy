/** The pure part of the double-entry engine: the static account-code tables,
    their resolvers, debit/credit totals and the balance rule every stored
    journal entry satisfies. */
module Ledger {
  import opened Common
  import opened Records

  /** `CATEGORY_ACCOUNT_MAP`: expense subcategory -> chart-of-accounts code,
      as its (key, value) pairs in declaration order. */
  const CategoryAccountMap: seq<(string, string)> := [
    ("advertising", "5000"),
    ("bad_debts", "5050"),
    ("bank_fees", "5100"),
    ("insurance", "5150"),
    ("meals_and_entertainment", "5200"),
    ("office_supplies", "5250"),
    ("professional_fees", "5300"),
    ("rent", "5350"),
    ("repairs_and_maintenance", "5400"),
    ("software_subscriptions", "5450"),
    ("telephone", "5500"),
    ("travel", "5550"),
    ("utilities", "5600"),
    ("vehicle_expenses", "5650"),
    ("contractor_payments", "5700"),
    ("employee_wages", "5750"),
    ("shipping", "5800"),
    ("taxes_and_licenses", "5850"),
    ("depreciation", "5900"),
    ("other", "5950"),
    ("business_use_of_home", "5960"),
    ("inventory", "6100"),
    ("cogs", "6000")
  ]

  /** `PAYMENT_CREDIT_ACCOUNT`: payment method -> code of the account
      credited when paying. */
  const PaymentCreditAccount: seq<(string, string)> := [
    ("cash", "1000"),
    ("credit_card", "2300"),
    ("debit", "1050"),
    ("bank_transfer", "1050"),
    ("cheque", "1050"),
    ("other", "1050")
  ]

  /** The values of a dictionary given by its pairs. */
  function Values(table: seq<(string, string)>): set<string> {
    set p | p in table :: p.1
  }

  /** `table.get(key)` on a dictionary given by its pairs (keys are unique,
      so the first match is the only one). */
  function Lookup(table: seq<(string, string)>, key: string): (r: Option<string>)
    ensures r.Some? ==> (key, r.value) in table && r.value in Values(table)
    ensures r.None? <==> forall p :: p in table ==> p.0 != key
  {
    if table == [] then None
    else if table[0].0 == key then Some(table[0].1)
    else
      assert Values(table[1..]) <= Values(table);
      Lookup(table[1..], key)
  }

  /** Fixed codes the posting rules use. */
  const CashCode := "1000"
  const BankCode := "1050"
  const ReceivableCode := "1100"
  const GstReceivableCode := "1300"
  const PayableCode := "2000"
  const GstPayableCode := "2100"
  const RevenueCode := "4000"
  const OtherExpensesCode := "5950"

  /** `_resolve_expense_account_code`: the mapped code for a known
      subcategory, "Other Expenses" for anything else, `None` included. (The
      source also tests the subcategory for truthiness; "" is no key, so that
      test changes nothing.) */
  function ExpenseAccountCode(subcategory: Option<string>): (code: string)
    ensures subcategory.Some? && Lookup(CategoryAccountMap, subcategory.value).Some? ==>
              code == Lookup(CategoryAccountMap, subcategory.value).value
    ensures (subcategory.None? || Lookup(CategoryAccountMap, subcategory.value).None?) ==>
              code == OtherExpensesCode
    ensures code == OtherExpensesCode || code in Values(CategoryAccountMap)
  {
    if subcategory.Some? && Lookup(CategoryAccountMap, subcategory.value).Some?
    then Lookup(CategoryAccountMap, subcategory.value).value
    else OtherExpensesCode
  }

  /** `_resolve_credit_account_code`: the mapped code for a known payment
      method, the business bank account for anything else ("" is no key
      here either). */
  function CreditAccountCode(paymentMethod: Option<string>): (code: string)
    ensures paymentMethod.Some? && Lookup(PaymentCreditAccount, paymentMethod.value).Some? ==>
              code == Lookup(PaymentCreditAccount, paymentMethod.value).value
    ensures (paymentMethod.None? || Lookup(PaymentCreditAccount, paymentMethod.value).None?) ==>
              code == BankCode
    ensures code == BankCode || code in Values(PaymentCreditAccount)
  {
    if paymentMethod.Some? && Lookup(PaymentCreditAccount, paymentMethod.value).Some?
    then Lookup(PaymentCreditAccount, paymentMethod.value).value
    else BankCode
  }

  function TotalDebit(lines: seq<Line>): int {
    if lines == [] then 0 else TotalDebit(lines[..|lines| - 1]) + lines[|lines| - 1].debit
  }

  function TotalCredit(lines: seq<Line>): int {
    if lines == [] then 0 else TotalCredit(lines[..|lines| - 1]) + lines[|lines| - 1].credit
  }

  /** `validate_journal_entry_balance`: with amounts in cents the source's
      `abs(debits - credits) < 0.01` is exact equality. */
  predicate IsBalanced(lines: seq<Line>) {
    TotalDebit(lines) == TotalCredit(lines)
  }

  lemma EmptyIsBalanced()
    ensures IsBalanced([])
    ensures TotalDebit([]) == 0 && TotalCredit([]) == 0
  {
  }

  lemma {:induction false} TotalsConcat(a: seq<Line>, b: seq<Line>)
    ensures TotalDebit(a + b) == TotalDebit(a) + TotalDebit(b)
    ensures TotalCredit(a + b) == TotalCredit(a) + TotalCredit(b)
    decreases |b|
  {
    if b == [] {
      assert a + b == a;
    } else {
      var b' := b[..|b| - 1];
      assert (a + b)[..|a + b| - 1] == a + b';
      TotalsConcat(a, b');
    }
  }

  lemma TotalsOfPair(a: Line, b: Line)
    ensures TotalDebit([a, b]) == a.debit + b.debit
    ensures TotalCredit([a, b]) == a.credit + b.credit
  {
    assert [a, b][..1] == [a];
    assert [a][..0] == [];
    assert TotalDebit([a]) == a.debit && TotalCredit([a]) == a.credit;
    assert TotalDebit([a, b]) == TotalDebit([a]) + b.debit;
    assert TotalCredit([a, b]) == TotalCredit([a]) + b.credit;
  }

  lemma TotalsOfTriple(a: Line, b: Line, c: Line)
    ensures TotalDebit([a, b, c]) == a.debit + b.debit + c.debit
    ensures TotalCredit([a, b, c]) == a.credit + b.credit + c.credit
  {
    assert [a, b, c][..2] == [a, b];
    TotalsOfPair(a, b);
  }

  /** Totals of a two- or three-line entry: first line, optional middle
      line, last line. */
  lemma TotalsOfShortLines(lines: seq<Line>)
    requires 2 <= |lines| <= 3
    ensures TotalDebit(lines) == lines[0].debit + (if |lines| == 3 then lines[1].debit else 0) + lines[|lines| - 1].debit
    ensures TotalCredit(lines) == lines[0].credit + (if |lines| == 3 then lines[1].credit else 0) + lines[|lines| - 1].credit
  {
    if |lines| == 3 {
      assert lines == [lines[0], lines[1], lines[2]];
      TotalsOfTriple(lines[0], lines[1], lines[2]);
    } else {
      assert lines == [lines[0], lines[1]];
      TotalsOfPair(lines[0], lines[1]);
    }
  }

  /** Joining two balanced line sets gives a balanced line set; a set that
      is balanced after adding a balanced part was balanced before. */
  lemma ConcatBalanced(a: seq<Line>, b: seq<Line>)
    requires IsBalanced(b)
    ensures IsBalanced(a + b) <==> IsBalanced(a)
  {
    TotalsConcat(a, b);
  }

  /** `_get_account_by_code`: the first ACTIVE account with this code. */
  function ActiveByCode(accounts: seq<Account>, code: string): (r: Option<Account>)
    ensures r.Some? ==> r.value in accounts && r.value.code == code && r.value.isActive
    ensures r.None? <==> forall a :: a in accounts ==> !(a.code == code && a.isActive)
  {
    if accounts == [] then None
    else if accounts[0].code == code && accounts[0].isActive then Some(accounts[0])
    else ActiveByCode(accounts[1..], code)
  }

  /** `db.query(Account).filter(Account.id == id).first()`: active or not. */
  function AccountById(accounts: seq<Account>, id: int): (r: Option<Account>)
    ensures r.Some? ==> r.value in accounts && r.value.id == id
    ensures r.None? <==> forall a :: a in accounts ==> a.id != id
  {
    if accounts == [] then None
    else if accounts[0].id == id then Some(accounts[0])
    else AccountById(accounts[1..], id)
  }

  /** Sum of all debits (credits) over every line of every entry. */
  function LedgerDebit(entries: seq<Entry>): int {
    if entries == [] then 0 else LedgerDebit(entries[..|entries| - 1]) + TotalDebit(entries[|entries| - 1].lines)
  }

  function LedgerCredit(entries: seq<Entry>): int {
    if entries == [] then 0 else LedgerCredit(entries[..|entries| - 1]) + TotalCredit(entries[|entries| - 1].lines)
  }

  /** The fundamental invariant, ledger-wide: when every entry balances, all
      debits ever posted equal all credits ever posted. */
  lemma {:induction false} LedgerBalances(entries: seq<Entry>)
    requires forall e :: e in entries ==> IsBalanced(e.lines)
    ensures LedgerDebit(entries) == LedgerCredit(entries)
  {
    if entries != [] {
      LedgerBalances(entries[..|entries| - 1]);
    }
  }

  /** Invariant of the stored journal: ids strictly increase in storage order
      and stay below the next id to hand out; every entry is posted, has at
      least one line and balances. */
  ghost predicate LedgerInvariant(entries: seq<Entry>, nextId: nat) {
    && (forall i, j :: 0 <= i < j < |entries| ==> entries[i].id < entries[j].id)
    && (forall e :: e in entries ==> e.id < nextId)
    && (forall e :: e in entries ==> e.isPosted && e.lines != [] && IsBalanced(e.lines))
  }

  lemma AppendKeepsLedgerInvariant(entries: seq<Entry>, nextId: nat, e: Entry)
    requires LedgerInvariant(entries, nextId)
    requires e.id == nextId && e.isPosted && e.lines != [] && IsBalanced(e.lines)
    ensures LedgerInvariant(entries + [e], nextId + 1)
  {
  }

  /** The entries not linked to transaction `txnId`, in storage order. */
  function Unlinked(entries: seq<Entry>, txnId: nat): (r: seq<Entry>)
    ensures |r| <= |entries|
    ensures forall e :: e in r <==> e in entries && e.transactionId != Some(txnId)
  {
    if entries == [] then []
    else
      var rest := Unlinked(entries[..|entries| - 1], txnId);
      var last := entries[|entries| - 1];
      assert entries == entries[..|entries| - 1] + [last];
      if last.transactionId != Some(txnId) then rest + [last] else rest
  }

  lemma {:induction false} UnlinkedKeepsLedgerInvariant(entries: seq<Entry>, txnId: nat, nextId: nat)
    requires LedgerInvariant(entries, nextId)
    ensures LedgerInvariant(Unlinked(entries, txnId), nextId)
  {
    if entries != [] {
      var prefix := entries[..|entries| - 1];
      var last := entries[|entries| - 1];
      assert LedgerInvariant(prefix, nextId);
      UnlinkedKeepsLedgerInvariant(prefix, txnId, nextId);
      var rest := Unlinked(prefix, txnId);
      if last.transactionId != Some(txnId) {
        assert forall e :: e in rest ==> e.id < last.id by {
          forall e | e in rest ensures e.id < last.id {
            var k :| 0 <= k < |prefix| && prefix[k] == e;
            assert entries[k] == e;
          }
        }
        AppendKeepsOrder(rest, last);
      }
    }
  }

  lemma AppendKeepsOrder(entries: seq<Entry>, e: Entry)
    requires forall i, j :: 0 <= i < j < |entries| ==> entries[i].id < entries[j].id
    requires forall x :: x in entries ==> x.id < e.id
    ensures var r := entries + [e]; forall i, j :: 0 <= i < j < |r| ==> r[i].id < r[j].id
  {
    var r := entries + [e];
    forall i, j | 0 <= i < j < |r| ensures r[i].id < r[j].id {
      if j == |entries| {
        assert r[i] in entries;
      }
    }
  }

  lemma RemoveAtKeepsLedgerInvariant(entries: seq<Entry>, k: nat, nextId: nat)
    requires LedgerInvariant(entries, nextId) && k < |entries|
    ensures LedgerInvariant(entries[..k] + entries[k + 1..], nextId)
  {
    var r := entries[..k] + entries[k + 1..];
    forall i, j | 0 <= i < j < |r| ensures r[i].id < r[j].id {
      var i' := if i < k then i else i + 1;
      var j' := if j < k then j else j + 1;
      assert r[i] == entries[i'] && r[j] == entries[j'];
    }
    assert forall e :: e in r ==> e in entries;
  }
}
