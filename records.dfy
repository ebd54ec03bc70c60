/** Record shapes of the stored tables (one datatype per model class).
    Money is in integer cents, GST rates in whole percent (0 or 5),
    and every nullable column is an `Option`. */
module Records {
  import opened Common

  /** A chart-of-accounts row. `parentId` keeps the raw optional integer the
      request carried (0 included), as the source stores it unchecked when falsy. */
  datatype Account = Account(
    id: nat,
    code: string,
    name: string,
    accountType: string,
    subType: Option<string>,
    description: Option<string>,
    parentId: Option<int>,
    isActive: bool,
    isSystem: bool,
    taxCode: Option<string>,
    normalBalance: string)

  /** One debit or credit line of a journal entry. */
  datatype Line = Line(accountId: nat, description: Option<string>, debit: int, credit: int)

  /** A journal entry header together with the lines it owns (in line-id order). */
  datatype Entry = Entry(
    id: nat,
    date: Date,
    description: string,
    reference: Option<string>,
    entryType: string,
    transactionId: Option<nat>,
    invoiceId: Option<nat>,
    billId: Option<nat>,
    isPosted: bool,
    notes: Option<string>,
    lines: seq<Line>)

  /** A cash transaction (the columns the core reads). */
  datatype Transaction = Transaction(
    id: nat,
    date: Date,
    description: string,
    amount: int,
    category: string,
    subcategory: Option<string>,
    taxAmount: Option<int>,
    taxDeductible: bool,
    paymentMethod: Option<string>)

  datatype BillItem = BillItem(
    description: string,
    quantity: real,
    unitPrice: real,
    amount: int,
    accountId: Option<int>)

  datatype BillPayment = BillPayment(
    paymentDate: Date,
    amount: int,
    paymentMethod: string,
    reference: Option<string>,
    notes: Option<string>)

  datatype Bill = Bill(
    id: nat,
    billNumber: string,
    vendorId: int,
    billDate: Date,
    dueDate: Date,
    status: string,
    subtotal: int,
    gstRate: int,
    gstAmount: int,
    total: int,
    amountPaid: int,
    notes: Option<string>,
    expenseAccountId: Option<int>,
    items: seq<BillItem>,
    payments: seq<BillPayment>)

  datatype InvoiceItem = InvoiceItem(
    description: string,
    quantity: real,
    unitPrice: real,
    amount: int)

  datatype Invoice = Invoice(
    id: nat,
    invoiceNumber: string,
    customerId: int,
    invoiceDate: Date,
    dueDate: Date,
    paidDate: Option<Date>,
    status: string,
    subtotal: int,
    gstRate: int,
    gstAmount: int,
    total: int,
    notes: Option<string>,
    items: seq<InvoiceItem>)

  /** The dedup key of an imported bank row. The source stores the SHA-256 of
      "date|description|amount"; the model keeps the three fields themselves,
      i.e. it treats the hash as collision-free. */
  datatype ImportHash = ImportHash(date: Date, description: string, amount: int)

  datatype BankAccount = BankAccount(
    id: nat,
    name: string,
    institution: Option<string>,
    last4: Option<string>,
    accountType: string,
    currency: string,
    glAccountId: Option<int>,
    openingBalance: int,
    currentBalance: int,
    isActive: bool)

  datatype BankTransaction = BankTransaction(
    id: nat,
    bankAccountId: nat,
    date: Date,
    description: string,
    amount: int,
    balance: Option<int>,
    reference: Option<string>,
    isReconciled: bool,
    journalEntryId: Option<int>,
    importHash: ImportHash)

  /** An uploaded document and the fields the review / AI steps set. */
  datatype Document = Document(
    id: nat,
    filename: string,
    originalFilename: string,
    fileType: string,
    fileSize: nat,
    processingStatus: string,
    reviewed: bool,
    reviewNotes: Option<string>,
    documentType: Option<string>,
    category: Option<string>,
    vendorName: Option<string>,
    amount: Option<int>,
    taxAmount: Option<int>)
}
