/** The posting rules: the debit/credit line lists each `create_je_for_*`
    assembles before its balance check, and the entry headers it stores.
    `None` stands for the early `return None` taken when an account the rule
    needs is missing from the chart. */
module Posting {
  import opened Common
  import opened Text
  import opened Records
  import opened Ledger

  function DebitLine(accountId: nat, amount: int, description: string): Line {
    Line(accountId, Some(description), amount, 0)
  }

  function CreditLine(accountId: nat, amount: int, description: string): Line {
    Line(accountId, Some(description), 0, amount)
  }

  /** Every line names an account of the chart (the foreign key of a line). */
  predicate LinesReferTo(lines: seq<Line>, accounts: seq<Account>) {
    forall l :: l in lines ==> AccountById(accounts, l.accountId).Some?
  }

  /** `txn.tax_amount or 0.0` */
  function TaxOf(txn: Transaction): int {
    if txn.taxAmount.Some? then txn.taxAmount.value else 0
  }

  // ---------------------------------------------------------------------
  // Transactions

  /** Expense: Dr expense |amount|, Dr GST receivable tax (when tax > 0 and
      account 1300 exists), Cr payment account |amount| + tax. */
  function ExpenseLines(accounts: seq<Account>, txn: Transaction): (r: Option<seq<Line>>)
    ensures r.Some? ==> |r.value| >= 2 && LinesReferTo(r.value, accounts)
  {
    var expense := ActiveByCode(accounts, ExpenseAccountCode(txn.subcategory));
    var payment := ActiveByCode(accounts, CreditAccountCode(txn.paymentMethod));
    if expense.None? || payment.None? then None
    else
      var amount := Abs(txn.amount);
      var tax := TaxOf(txn);
      var gst := ActiveByCode(accounts, GstReceivableCode);
      Some([DebitLine(expense.value.id, amount, txn.description)]
           + (if tax > 0 && gst.Some? then [DebitLine(gst.value.id, tax, "GST on " + txn.description)] else [])
           + [CreditLine(payment.value.id, amount + tax, txn.description)])
  }

  /** Revenue: Dr bank |amount| + tax, Cr revenue |amount|, Cr GST payable
      tax (when tax > 0 and account 2100 exists). */
  function RevenueLines(accounts: seq<Account>, txn: Transaction): (r: Option<seq<Line>>)
    ensures r.Some? ==> |r.value| >= 2 && LinesReferTo(r.value, accounts)
  {
    var revenue := ActiveByCode(accounts, RevenueCode);
    var bank := ActiveByCode(accounts, BankCode);
    if revenue.None? || bank.None? then None
    else
      var amount := Abs(txn.amount);
      var tax := TaxOf(txn);
      var gst := ActiveByCode(accounts, GstPayableCode);
      Some([DebitLine(bank.value.id, amount + tax, txn.description),
            CreditLine(revenue.value.id, amount, txn.description)]
           + (if tax > 0 && gst.Some? then [CreditLine(gst.value.id, tax, "GST on " + txn.description)] else []))
  }

  /** The lines of `create_je_for_transaction`; other categories post nothing. */
  function TransactionLines(accounts: seq<Account>, txn: Transaction): (r: Option<seq<Line>>)
    ensures r.Some? ==> |r.value| >= 2 && LinesReferTo(r.value, accounts)
    ensures r.Some? ==> txn.category == "expense" || txn.category == "revenue"
  {
    if txn.category == "expense" then ExpenseLines(accounts, txn)
    else if txn.category == "revenue" then RevenueLines(accounts, txn)
    else None
  }

  /** The GST account a transaction of this category would use. */
  function TransactionGstCode(txn: Transaction): string {
    if txn.category == "expense" then GstReceivableCode else GstPayableCode
  }

  /** When `create_je_for_transaction` gets past its account lookups. */
  lemma TransactionLinesExist(accounts: seq<Account>, txn: Transaction)
    ensures TransactionLines(accounts, txn).Some? <==>
      (txn.category == "expense"
         && ActiveByCode(accounts, ExpenseAccountCode(txn.subcategory)).Some?
         && ActiveByCode(accounts, CreditAccountCode(txn.paymentMethod)).Some?)
      || (txn.category == "revenue"
         && ActiveByCode(accounts, RevenueCode).Some?
         && ActiveByCode(accounts, BankCode).Some?)
  {
  }

  /** The exact shape of an expense entry. */
  lemma ExpenseLinesShape(accounts: seq<Account>, txn: Transaction)
    requires txn.category == "expense" && TransactionLines(accounts, txn).Some?
    ensures var lines := TransactionLines(accounts, txn).value;
      var expense := ActiveByCode(accounts, ExpenseAccountCode(txn.subcategory)).value;
      var payment := ActiveByCode(accounts, CreditAccountCode(txn.paymentMethod)).value;
      var gst := ActiveByCode(accounts, GstReceivableCode);
      && lines[0].accountId == expense.id && lines[0].debit == Abs(txn.amount) && lines[0].credit == 0
      && lines[|lines| - 1].accountId == payment.id && lines[|lines| - 1].debit == 0
      && lines[|lines| - 1].credit == Abs(txn.amount) + TaxOf(txn)
      && (|lines| == 3 <==> TaxOf(txn) > 0 && gst.Some?)
      && (|lines| == 3 ==> lines[1].accountId == gst.value.id && lines[1].debit == TaxOf(txn) && lines[1].credit == 0)
      && |lines| <= 3
  {
  }

  /** The exact shape of a revenue entry. */
  lemma RevenueLinesShape(accounts: seq<Account>, txn: Transaction)
    requires txn.category == "revenue" && TransactionLines(accounts, txn).Some?
    ensures var lines := TransactionLines(accounts, txn).value;
      var revenue := ActiveByCode(accounts, RevenueCode).value;
      var bank := ActiveByCode(accounts, BankCode).value;
      var gst := ActiveByCode(accounts, GstPayableCode);
      && lines[0] == DebitLine(bank.id, Abs(txn.amount) + TaxOf(txn), txn.description)
      && lines[1] == CreditLine(revenue.id, Abs(txn.amount), txn.description)
      && (|lines| == 3 <==> TaxOf(txn) > 0 && gst.Some?)
      && (|lines| == 3 ==> lines[2].accountId == gst.value.id && lines[2].credit == TaxOf(txn) && lines[2].debit == 0)
      && |lines| <= 3
  {
  }

  /** A transaction's line set balances exactly when it carries no tax, or
      positive tax and the GST account exists (a negative tax never balances,
      nor does positive tax without a GST account). */
  lemma TransactionBalancedIff(accounts: seq<Account>, txn: Transaction)
    requires TransactionLines(accounts, txn).Some?
    ensures IsBalanced(TransactionLines(accounts, txn).value) <==>
      TaxOf(txn) == 0 || (TaxOf(txn) > 0 && ActiveByCode(accounts, TransactionGstCode(txn)).Some?)
  {
    if txn.category == "expense" {
      ExpenseTotals(accounts, txn);
    } else {
      RevenueTotals(accounts, txn);
    }
  }

  lemma ExpenseTotals(accounts: seq<Account>, txn: Transaction)
    requires txn.category == "expense" && TransactionLines(accounts, txn).Some?
    ensures var lines := TransactionLines(accounts, txn).value;
      var gst := ActiveByCode(accounts, GstReceivableCode);
      && TotalDebit(lines) == Abs(txn.amount) + (if TaxOf(txn) > 0 && gst.Some? then TaxOf(txn) else 0)
      && TotalCredit(lines) == Abs(txn.amount) + TaxOf(txn)
  {
    var lines := TransactionLines(accounts, txn).value;
    ExpenseLinesShape(accounts, txn);
    TotalsOfShortLines(lines);
  }

  lemma RevenueTotals(accounts: seq<Account>, txn: Transaction)
    requires txn.category == "revenue" && TransactionLines(accounts, txn).Some?
    ensures var lines := TransactionLines(accounts, txn).value;
      var gst := ActiveByCode(accounts, GstPayableCode);
      && TotalDebit(lines) == Abs(txn.amount) + TaxOf(txn)
      && TotalCredit(lines) == Abs(txn.amount) + (if TaxOf(txn) > 0 && gst.Some? then TaxOf(txn) else 0)
  {
    var lines := TransactionLines(accounts, txn).value;
    RevenueLinesShape(accounts, txn);
    TotalsOfShortLines(lines);
  }

  /** Whether `create_je_for_transaction` stores an entry for `txn`: its
      accounts resolve and its tax is zero, or positive with a GST account
      (see `TransactionBalancedIff`). */
  predicate TransactionPosts(accounts: seq<Account>, txn: Transaction) {
    && TransactionLines(accounts, txn).Some?
    && (TaxOf(txn) == 0 || (TaxOf(txn) > 0 && ActiveByCode(accounts, TransactionGstCode(txn)).Some?))
  }

  /** The stored header: reference "TXN-<id>", linked to the transaction. */
  function TransactionEntry(txn: Transaction, id: nat, lines: seq<Line>): (e: Entry)
    ensures e.transactionId == Some(txn.id) && e.isPosted && e.lines == lines
    ensures e.entryType == (if txn.category == "expense" then "auto_expense" else "auto_revenue")
  {
    Entry(id, txn.date, txn.description, Some("TXN-" + NatToString(txn.id)),
          if txn.category == "expense" then "auto_expense" else "auto_revenue",
          Some(txn.id), None, None, true, None, lines)
  }

  // ---------------------------------------------------------------------
  // Invoices

  /** Invoice sent: Dr receivable total, Cr revenue subtotal, Cr GST payable
      gst (when gst > 0 and account 2100 exists). */
  function InvoiceSentLines(accounts: seq<Account>, inv: Invoice): (r: Option<seq<Line>>)
    ensures r.Some? ==> |r.value| >= 2 && LinesReferTo(r.value, accounts)
  {
    var receivable := ActiveByCode(accounts, ReceivableCode);
    var revenue := ActiveByCode(accounts, RevenueCode);
    if receivable.None? || revenue.None? then None
    else
      var gst := ActiveByCode(accounts, GstPayableCode);
      Some([DebitLine(receivable.value.id, inv.total, "Invoice " + inv.invoiceNumber),
            CreditLine(revenue.value.id, inv.subtotal, "Invoice " + inv.invoiceNumber)]
           + (if inv.gstAmount > 0 && gst.Some?
              then [CreditLine(gst.value.id, inv.gstAmount, "GST on " + inv.invoiceNumber)] else []))
  }

  /** The GST the sent entry credits. */
  function PostedInvoiceGst(accounts: seq<Account>, inv: Invoice): int {
    if inv.gstAmount > 0 && ActiveByCode(accounts, GstPayableCode).Some? then inv.gstAmount else 0
  }

  lemma InvoiceSentBalancedIff(accounts: seq<Account>, inv: Invoice)
    requires InvoiceSentLines(accounts, inv).Some?
    ensures TotalDebit(InvoiceSentLines(accounts, inv).value) == inv.total
    ensures TotalCredit(InvoiceSentLines(accounts, inv).value) == inv.subtotal + PostedInvoiceGst(accounts, inv)
    ensures IsBalanced(InvoiceSentLines(accounts, inv).value) <==>
      inv.total == inv.subtotal + PostedInvoiceGst(accounts, inv)
  {
    var lines := InvoiceSentLines(accounts, inv).value;
    if |lines| == 3 {
      TotalsOfTriple(lines[0], lines[1], lines[2]);
      assert lines == [lines[0], lines[1], lines[2]];
    } else {
      TotalsOfPair(lines[0], lines[1]);
      assert lines == [lines[0], lines[1]];
    }
  }

  function InvoiceSentEntry(inv: Invoice, id: nat, lines: seq<Line>): (e: Entry)
    ensures e.invoiceId == Some(inv.id) && e.isPosted && e.lines == lines && e.entryType == "auto_invoice"
  {
    Entry(id, inv.invoiceDate, "Invoice " + inv.invoiceNumber + " sent", Some(inv.invoiceNumber),
          "auto_invoice", None, Some(inv.id), None, true, None, lines)
  }

  /** `amount or invoice.total`: an absent or zero amount means the total. */
  function InvoicePaymentAmount(amount: Option<int>, inv: Invoice): (pay: int)
    ensures amount.Some? && amount.value != 0 ==> pay == amount.value
    ensures (amount.None? || amount.value == 0) ==> pay == inv.total
  {
    if amount.Some? && amount.value != 0 then amount.value else inv.total
  }

  /** `payment_date or invoice.paid_date or date.today()` */
  function InvoicePaymentDate(paymentDate: Option<Date>, inv: Invoice, today: Date): Date {
    if paymentDate.Some? then paymentDate.value
    else if inv.paidDate.Some? then inv.paidDate.value
    else today
  }

  /** Invoice paid: Dr bank / Cr receivable, both for the payment amount. */
  function InvoicePaidLines(accounts: seq<Account>, inv: Invoice, amount: Option<int>): (r: Option<seq<Line>>)
    ensures r.Some? ==> |r.value| == 2 && LinesReferTo(r.value, accounts) && IsBalanced(r.value)
    ensures r.Some? ==> TotalDebit(r.value) == InvoicePaymentAmount(amount, inv)
    ensures r.Some? <==> ActiveByCode(accounts, BankCode).Some? && ActiveByCode(accounts, ReceivableCode).Some?
  {
    var bank := ActiveByCode(accounts, BankCode);
    var receivable := ActiveByCode(accounts, ReceivableCode);
    if bank.None? || receivable.None? then None
    else
      var pay := InvoicePaymentAmount(amount, inv);
      var lines := [DebitLine(bank.value.id, pay, "Payment for " + inv.invoiceNumber),
                    CreditLine(receivable.value.id, pay, "Payment for " + inv.invoiceNumber)];
      TotalsOfPair(lines[0], lines[1]);
      Some(lines)
  }

  function InvoicePaidEntry(inv: Invoice, id: nat, date: Date, lines: seq<Line>): (e: Entry)
    ensures e.invoiceId == Some(inv.id) && e.isPosted && e.lines == lines && e.entryType == "auto_payment"
  {
    Entry(id, date, "Payment received for " + inv.invoiceNumber, Some(inv.invoiceNumber),
          "auto_payment", None, Some(inv.id), None, true, None, lines)
  }

  // ---------------------------------------------------------------------
  // Bills

  /** Expense account of one bill item: the item's account, else the bill's,
      else 5950; when the chosen id names no account, 5950 again. */
  function ItemExpenseAccount(accounts: seq<Account>, bill: Bill, item: BillItem): (r: Option<Account>)
    ensures r.Some? ==> r.value in accounts
    ensures r.None? ==> ActiveByCode(accounts, OtherExpensesCode).None?
    ensures Truthy(item.accountId) && AccountById(accounts, item.accountId.value).Some? ==>
      r == AccountById(accounts, item.accountId.value)
    ensures !Truthy(item.accountId) && Truthy(bill.expenseAccountId) && AccountById(accounts, bill.expenseAccountId.value).Some? ==>
      r == AccountById(accounts, bill.expenseAccountId.value)
    ensures (if Truthy(item.accountId) then AccountById(accounts, item.accountId.value).None?
             else !Truthy(bill.expenseAccountId) || AccountById(accounts, bill.expenseAccountId.value).None?) ==>
      r == ActiveByCode(accounts, OtherExpensesCode)
  {
    var chosen :=
      if Truthy(item.accountId) then AccountById(accounts, item.accountId.value)
      else if Truthy(bill.expenseAccountId) then AccountById(accounts, bill.expenseAccountId.value)
      else ActiveByCode(accounts, OtherExpensesCode);
    if chosen.Some? then chosen else ActiveByCode(accounts, OtherExpensesCode)
  }

  /** One debit per item, in item order; `None` as soon as an item has no
      account at all. */
  function ItemLines(accounts: seq<Account>, bill: Bill, items: seq<BillItem>): (r: Option<seq<Line>>)
    ensures r.Some? ==> |r.value| == |items| && LinesReferTo(r.value, accounts)
    ensures r.Some? ==> forall i :: 0 <= i < |items| ==> r.value[i].debit == items[i].amount && r.value[i].credit == 0
  {
    if items == [] then Some([])
    else
      var prefix := ItemLines(accounts, bill, items[..|items| - 1]);
      var item := items[|items| - 1];
      var account := ItemExpenseAccount(accounts, bill, item);
      if prefix.None? || account.None? then None
      else Some(prefix.value + [DebitLine(account.value.id, item.amount, item.description)])
  }

  /** `ItemLines` on one more item. */
  lemma ItemLinesStep(accounts: seq<Account>, bill: Bill, items: seq<BillItem>, i: nat)
    requires i < |items|
    ensures var prefix := ItemLines(accounts, bill, items[..i]);
      var account := ItemExpenseAccount(accounts, bill, items[i]);
      ItemLines(accounts, bill, items[..i + 1])
        == if prefix.None? || account.None? then None
           else Some(prefix.value + [DebitLine(account.value.id, items[i].amount, items[i].description)])
  {
    assert items[..i + 1][..i] == items[..i];
  }

  /** The single subtotal debit used when the bill has no items: the bill's
      account, else 5950, with no second fallback. */
  function SubtotalAccount(accounts: seq<Account>, bill: Bill): Option<Account> {
    if Truthy(bill.expenseAccountId) then AccountById(accounts, bill.expenseAccountId.value)
    else ActiveByCode(accounts, OtherExpensesCode)
  }

  /** The debits before GST and the payable credit. */
  function ExpenseDebits(accounts: seq<Account>, bill: Bill): Option<seq<Line>> {
    if bill.items != [] then ItemLines(accounts, bill, bill.items)
    else
      var account := SubtotalAccount(accounts, bill);
      if account.None? then None
      else Some([DebitLine(account.value.id, bill.subtotal, "Bill " + bill.billNumber)])
  }

  /** Bill received: the expense debits, Dr GST receivable gst (when gst > 0
      and 1300 exists), Cr payable total. */
  function BillReceivedLines(accounts: seq<Account>, bill: Bill): (r: Option<seq<Line>>)
    ensures r.Some? ==> |r.value| >= 2 && LinesReferTo(r.value, accounts)
  {
    var payable := ActiveByCode(accounts, PayableCode);
    var debits := ExpenseDebits(accounts, bill);
    if payable.None? || debits.None? then None
    else
      var gst := ActiveByCode(accounts, GstReceivableCode);
      Some(debits.value
           + (if bill.gstAmount > 0 && gst.Some? then [DebitLine(gst.value.id, bill.gstAmount, "GST on " + bill.billNumber)] else [])
           + [CreditLine(payable.value.id, bill.total, "Bill " + bill.billNumber)])
  }

  /** Sum of the stored item amounts. */
  function ItemsTotal(items: seq<BillItem>): int {
    if items == [] then 0 else ItemsTotal(items[..|items| - 1]) + items[|items| - 1].amount
  }

  lemma {:induction false} ItemLinesDebit(accounts: seq<Account>, bill: Bill, items: seq<BillItem>)
    requires ItemLines(accounts, bill, items).Some?
    ensures TotalDebit(ItemLines(accounts, bill, items).value) == ItemsTotal(items)
    ensures TotalCredit(ItemLines(accounts, bill, items).value) == 0
  {
    if items != [] {
      var lines := ItemLines(accounts, bill, items).value;
      ItemLinesDebit(accounts, bill, items[..|items| - 1]);
      assert lines[..|lines| - 1] == ItemLines(accounts, bill, items[..|items| - 1]).value;
    }
  }

  /** What the bill-received entry debits to expense accounts. */
  function BillExpenseAmount(bill: Bill): int {
    if bill.items != [] then ItemsTotal(bill.items) else bill.subtotal
  }

  function PostedBillGst(accounts: seq<Account>, bill: Bill): int {
    if bill.gstAmount > 0 && ActiveByCode(accounts, GstReceivableCode).Some? then bill.gstAmount else 0
  }

  /** Debits are the expense amount plus posted GST, the credit is the total,
      so the entry balances exactly when those agree. */
  lemma BillReceivedBalancedIff(accounts: seq<Account>, bill: Bill)
    requires BillReceivedLines(accounts, bill).Some?
    ensures TotalDebit(BillReceivedLines(accounts, bill).value) == BillExpenseAmount(bill) + PostedBillGst(accounts, bill)
    ensures TotalCredit(BillReceivedLines(accounts, bill).value) == bill.total
    ensures IsBalanced(BillReceivedLines(accounts, bill).value) <==>
      bill.total == BillExpenseAmount(bill) + PostedBillGst(accounts, bill)
  {
    var debits := ExpenseDebits(accounts, bill).value;
    var gst := ActiveByCode(accounts, GstReceivableCode);
    var gstPart := if bill.gstAmount > 0 && gst.Some? then [DebitLine(gst.value.id, bill.gstAmount, "GST on " + bill.billNumber)] else [];
    var payable := ActiveByCode(accounts, PayableCode).value;
    var last := [CreditLine(payable.id, bill.total, "Bill " + bill.billNumber)];
    if bill.items != [] {
      ItemLinesDebit(accounts, bill, bill.items);
    } else {
      assert TotalDebit(debits) == bill.subtotal by {
        assert debits[..0] == [];
      }
    }
    TotalsConcat(debits, gstPart);
    TotalsConcat(debits + gstPart, last);
    if gstPart != [] {
      assert gstPart[..0] == [];
    }
    assert last[..0] == [];
  }

  function BillReceivedEntry(bill: Bill, id: nat, lines: seq<Line>): (e: Entry)
    ensures e.billId == Some(bill.id) && e.isPosted && e.lines == lines && e.entryType == "auto_bill"
  {
    Entry(id, bill.billDate, "Bill " + bill.billNumber + " received", Some(bill.billNumber),
          "auto_bill", None, None, Some(bill.id), true, None, lines)
  }

  /** Bill payment: Dr payable / Cr bank, both for the payment amount. */
  function BillPaymentLines(accounts: seq<Account>, bill: Bill, payment: BillPayment): (r: Option<seq<Line>>)
    ensures r.Some? ==> |r.value| == 2 && LinesReferTo(r.value, accounts) && IsBalanced(r.value)
    ensures r.Some? ==> TotalDebit(r.value) == payment.amount
    ensures r.Some? <==> ActiveByCode(accounts, PayableCode).Some? && ActiveByCode(accounts, BankCode).Some?
  {
    var payable := ActiveByCode(accounts, PayableCode);
    var bank := ActiveByCode(accounts, BankCode);
    if payable.None? || bank.None? then None
    else
      var lines := [DebitLine(payable.value.id, payment.amount, "Payment for " + bill.billNumber),
                    CreditLine(bank.value.id, payment.amount, "Payment for " + bill.billNumber)];
      TotalsOfPair(lines[0], lines[1]);
      Some(lines)
  }

  function BillPaymentEntry(bill: Bill, payment: BillPayment, id: nat, lines: seq<Line>): (e: Entry)
    ensures e.billId == Some(bill.id) && e.isPosted && e.lines == lines && e.entryType == "auto_bill_payment"
  {
    Entry(id, payment.paymentDate, "Payment for bill " + bill.billNumber, Some(bill.billNumber),
          "auto_bill_payment", None, None, Some(bill.id), true, None, lines)
  }

  // ---------------------------------------------------------------------
  // Manual entries

  function ManualEntry(id: nat, date: Date, description: string, notes: Option<string>, lines: seq<Line>): (e: Entry)
    ensures e.isPosted && e.lines == lines && e.entryType == "manual"
    ensures e.transactionId.None? && e.invoiceId.None? && e.billId.None?
  {
    Entry(id, date, description, None, "manual", None, None, None, true, notes, lines)
  }
}
