/** Accounts payable: the bill store and its endpoints. Bills move from
    draft to received (which posts the bill to the journal) to paid; each
    payment is posted as it is recorded. */
module BillsApi {
  import opened Common
  import opened Text
  import opened Records
  import opened Ledger
  import opened Posting
  import opened Books
  import opened Ordering
  import opened Totals
  import opened Numbering

  const BillStatuses: seq<string> := ["draft", "received", "paid", "overdue"]

  const BillNotFound := HttpError(404, "Bill not found")

  /** `BillItemCreate` */
  datatype ItemRequest = ItemRequest(description: string, quantity: real, unitPrice: real, accountId: Option<int>)

  /** `BillCreate` */
  datatype BillCreate = BillCreate(
    vendorId: int,
    billDate: Date,
    dueDate: Date,
    applyGst: bool,
    notes: Option<string>,
    expenseAccountId: Option<int>,
    items: seq<ItemRequest>)

  /** `BillUpdate`: `None` leaves a field as it is. */
  datatype BillUpdate = BillUpdate(
    vendorId: Option<int>,
    billDate: Option<Date>,
    dueDate: Option<Date>,
    applyGst: Option<bool>,
    notes: Option<string>,
    expenseAccountId: Option<int>,
    items: Option<seq<ItemRequest>>)

  /** `BillPaymentCreate`, the amount in cents. */
  datatype PaymentRequest = PaymentRequest(
    paymentDate: Date,
    amount: int,
    paymentMethod: string,
    reference: Option<string>,
    notes: Option<string>)

  predicate ItemWellFormed(i: ItemRequest) {
    && 1 <= |i.description| <= 500
    && 0.0 < i.quantity < 1000000.0
    && 0.0 < i.unitPrice < 1000000000.0
  }

  /** The schema of a new bill: at least one well-formed item, notes of at
      most 2000 characters, and a due date not before the bill date. */
  predicate CreateWellFormed(data: BillCreate) {
    && |data.items| >= 1
    && (forall i :: i in data.items ==> ItemWellFormed(i))
    && MaxLength(data.notes, 2000)
    && DateLe(data.billDate, data.dueDate)
  }

  predicate UpdateWellFormed(data: BillUpdate) {
    && MaxLength(data.notes, 2000)
    && (data.items.Some? ==> forall i :: i in data.items.value ==> ItemWellFormed(i))
  }

  /** A payment of more than 0 and less than 1,000,000,000 dollars. */
  predicate PaymentWellFormed(p: PaymentRequest) {
    && 0 < p.amount < 100000000000
    && |p.paymentMethod| <= 50
    && MaxLength(p.reference, 100)
    && MaxLength(p.notes, 2000)
  }

  /** The stored item: its amount is `round(quantity * unit_price, 2)`. */
  function ItemOf(r: ItemRequest): BillItem {
    BillItem(r.description, r.quantity, r.unitPrice, LineAmount(r.quantity, r.unitPrice), r.accountId)
  }

  function ItemsOf(reqs: seq<ItemRequest>): (r: seq<BillItem>)
    ensures |r| == |reqs| && forall i :: 0 <= i < |reqs| ==> r[i] == ItemOf(reqs[i])
  {
    seq(|reqs|, i requires 0 <= i < |reqs| => ItemOf(reqs[i]))
  }

  /** The amounts `_calc_totals` sums for these items: each recomputed
      from quantity and unit price. */
  function AmountsOf(items: seq<BillItem>): (r: seq<int>)
    ensures |r| == |items| && forall i :: 0 <= i < |items| ==> r[i] == LineAmount(items[i].quantity, items[i].unitPrice)
  {
    seq(|items|, i requires 0 <= i < |items| => LineAmount(items[i].quantity, items[i].unitPrice))
  }

  /** A bill's totals are what `_calc_totals` gives for its items at its
      GST setting, and every item carries its own rounded amount. */
  ghost predicate TotalsConsistent(b: Bill) {
    var t := CalcTotals(AmountsOf(b.items), b.gstRate > 0);
    && b.subtotal == t.subtotal && b.gstRate == t.gstRate && b.gstAmount == t.gstAmount && b.total == t.total
    && (forall item :: item in b.items ==>
          item.quantity > 0.0 && item.unitPrice > 0.0 && item.amount == LineAmount(item.quantity, item.unitPrice))
  }

  lemma {:induction false} ItemsTotalIsSum(items: seq<BillItem>)
    requires forall item :: item in items ==> item.amount == LineAmount(item.quantity, item.unitPrice)
    ensures ItemsTotal(items) == Sum(AmountsOf(items))
  {
    if items != [] {
      var prefix := items[..|items| - 1];
      assert forall item :: item in prefix ==> item in items;
      assert items[|items| - 1] in items;
      ItemsTotalIsSum(prefix);
      assert AmountsOf(items)[..|items| - 1] == AmountsOf(prefix);
    }
  }

  lemma AmountsNonNegative(items: seq<BillItem>)
    requires forall item :: item in items ==> item.quantity > 0.0 && item.unitPrice > 0.0
    ensures forall a :: a in AmountsOf(items) ==> a >= 0
  {
    forall a | a in AmountsOf(items) ensures a >= 0 {
      var i :| 0 <= i < |items| && AmountsOf(items)[i] == a;
      assert items[i] in items;
      LineAmountNonNegative(items[i].quantity, items[i].unitPrice);
    }
  }

  /** For a bill whose totals came from `_calc_totals`, the bill-received
      entry balances exactly when no GST is charged or the GST receivable
      account exists: the item debits add up to the subtotal and the payable
      credit is subtotal plus GST. */
  lemma ConsistentBillBalances(accounts: seq<Account>, b: Bill)
    requires TotalsConsistent(b) && BillReceivedLines(accounts, b).Some?
    ensures IsBalanced(BillReceivedLines(accounts, b).value) <==>
      (b.gstAmount == 0 || ActiveByCode(accounts, GstReceivableCode).Some?)
    ensures b.gstAmount >= 0
  {
    BillReceivedBalancedIff(accounts, b);
    ItemsTotalIsSum(b.items);
    AmountsNonNegative(b.items);
    CalcTotalsSpec(AmountsOf(b.items), b.gstRate > 0);
  }

  // ---- Account checks (the item loop of create_bill / update_bill) ----

  /** The error of the first item naming an account id that does not exist. */
  function MissingItemAccount(accounts: seq<Account>, items: seq<ItemRequest>): (r: Option<HttpError>)
    ensures r.None? <==> forall i :: i in items && Truthy(i.accountId) ==> AccountById(accounts, i.accountId.value).Some?
  {
    if items == [] then None
    else if Truthy(items[0].accountId) && AccountById(accounts, items[0].accountId.value).None? then
      Some(HttpError(400, "Account " + IntToString(items[0].accountId.value) + " not found"))
    else
      assert forall i :: i in items <==> i == items[0] || i in items[1..];
      MissingItemAccount(accounts, items[1..])
  }

  method CheckItemAccounts(accounts: seq<Account>, items: seq<ItemRequest>) returns (r: Option<HttpError>)
    ensures r == MissingItemAccount(accounts, items)
  {
    var i := 0;
    while i < |items|
      invariant 0 <= i <= |items|
      invariant MissingItemAccount(accounts, items) == MissingItemAccount(accounts, items[i..])
    {
      assert items[i..][0] == items[i] && items[i..][1..] == items[i + 1..];
      var item := items[i];
      if Truthy(item.accountId) && AccountById(accounts, item.accountId.value).None? {
        return Some(HttpError(400, "Account " + IntToString(item.accountId.value) + " not found"));
      }
      i := i + 1;
    }
    return None;
  }

  // ---- Creation ----

  /** The checks of `create_bill` before the item loop, in order. */
  function HeaderCheck(accounts: seq<Account>, vendors: set<int>, data: BillCreate): Option<HttpError> {
    if !CreateWellFormed(data) then Some(ValidationError)
    else if data.vendorId !in vendors then Some(HttpError(400, "Vendor not found"))
    else if Truthy(data.expenseAccountId) && AccountById(accounts, data.expenseAccountId.value).None? then
      Some(HttpError(400, "Expense account not found"))
    else None
  }

  /** Everything `create_bill` checks, in order. */
  function CreateCheck(accounts: seq<Account>, vendors: set<int>, data: BillCreate): Option<HttpError> {
    var header := HeaderCheck(accounts, vendors, data);
    if header.Some? then header else MissingItemAccount(accounts, data.items)
  }

  /** The number `_next_bill_number` gives after these bills (the last stored
      bill has the highest id). */
  function NextBillNumber(bills: seq<Bill>): string {
    NextNumber("BILL", if bills == [] then None else Some(bills[|bills| - 1].billNumber))
  }

  /** The bill `create_bill` stores: a draft with nothing paid and totals
      from `_calc_totals`. */
  function NewBill(id: nat, number: string, data: BillCreate): Bill {
    var items := ItemsOf(data.items);
    var t := CalcTotals(AmountsOf(items), data.applyGst);
    Bill(id, number, data.vendorId, data.billDate, data.dueDate, "draft", t.subtotal, t.gstRate, t.gstAmount,
         t.total, 0, data.notes, data.expenseAccountId, items, [])
  }

  /** A new bill is a draft with nothing paid, one stored item per requested
      item, and totals consistent with its items. */
  lemma NewBillSpec(id: nat, number: string, data: BillCreate)
    requires CreateWellFormed(data)
    ensures var b := NewBill(id, number, data);
      && b.status == "draft" && b.amountPaid == 0 && b.payments == []
      && |b.items| == |data.items| >= 1
      && TotalsConsistent(b)
      && b.total == b.subtotal + b.gstAmount
      && b.subtotal == Sum(AmountsOf(b.items))
      && (b.gstRate > 0 <==> data.applyGst)
  {
    var b := NewBill(id, number, data);
    forall item | item in b.items ensures item.quantity > 0.0 && item.unitPrice > 0.0 {
      var i :| 0 <= i < |b.items| && b.items[i] == item;
      assert data.items[i] in data.items;
    }
    CalcTotalsSpec(AmountsOf(b.items), data.applyGst);
  }

  // ---- Update ----

  /** The checks of `update_bill` once the bill is found and editable. */
  function UpdateCheck(accounts: seq<Account>, vendors: set<int>, data: BillUpdate): Option<HttpError> {
    if data.vendorId.Some? && data.vendorId.value !in vendors then Some(HttpError(400, "Vendor not found"))
    else if data.expenseAccountId.Some? && data.expenseAccountId.value != 0
            && AccountById(accounts, data.expenseAccountId.value).None? then
      Some(HttpError(400, "Expense account not found"))
    else if data.items.Some? then MissingItemAccount(accounts, data.items.value)
    else None
  }

  /** The bill after `update_bill`: given fields replace the stored ones
      (an expense account of 0 clears it); new items replace all items and
      recompute the totals; a GST toggle alone recomputes them from the
      stored items. */
  function Updated(b: Bill, data: BillUpdate): Bill {
    var applyGst := if data.applyGst.Some? then data.applyGst.value else b.gstRate > 0;
    var items := if data.items.Some? then ItemsOf(data.items.value) else b.items;
    var t := CalcTotals(AmountsOf(items), applyGst);
    var recompute := data.items.Some? || data.applyGst.Some?;
    b.(vendorId := if data.vendorId.Some? then data.vendorId.value else b.vendorId,
       expenseAccountId := if data.expenseAccountId.None? then b.expenseAccountId
                           else if data.expenseAccountId.value != 0 then data.expenseAccountId else None,
       billDate := if data.billDate.Some? then data.billDate.value else b.billDate,
       dueDate := if data.dueDate.Some? then data.dueDate.value else b.dueDate,
       notes := if data.notes.Some? then data.notes else b.notes,
       items := items,
       subtotal := if recompute then t.subtotal else b.subtotal,
       gstRate := if recompute then t.gstRate else b.gstRate,
       gstAmount := if recompute then t.gstAmount else b.gstAmount,
       total := if recompute then t.total else b.total)
  }

  /** An update keeps the bill's identity, number, status and payments, and
      keeps its totals consistent with its items. */
  lemma UpdatedSpec(b: Bill, data: BillUpdate)
    requires TotalsConsistent(b) && UpdateWellFormed(data)
    ensures var u := Updated(b, data);
      && u.id == b.id && u.billNumber == b.billNumber && u.status == b.status
      && u.amountPaid == b.amountPaid && u.payments == b.payments
      && TotalsConsistent(u)
      && (data.items.None? && data.applyGst.None? ==> u.items == b.items && u.total == b.total)
  {
    var u := Updated(b, data);
    if data.items.Some? {
      forall item | item in u.items
        ensures item.quantity > 0.0 && item.unitPrice > 0.0 && item.amount == LineAmount(item.quantity, item.unitPrice)
      {
        var i :| 0 <= i < |u.items| && u.items[i] == item;
        assert data.items.value[i] in data.items.value;
      }
    }
  }

  // ---- Payments ----

  /** The bill after a payment: the payment appended, `amount_paid` raised
      by it, and status "paid" once the total is covered. */
  function Paid(b: Bill, p: BillPayment): Bill {
    var paid := b.amountPaid + p.amount;
    b.(payments := b.payments + [p], amountPaid := paid, status := if paid >= b.total then "paid" else b.status)
  }

  function PaymentOf(data: PaymentRequest): BillPayment {
    BillPayment(data.paymentDate, data.amount, data.paymentMethod, data.reference, data.notes)
  }

  /** The checks of `record_bill_payment` once the bill is found. */
  function PaymentCheck(b: Bill, data: PaymentRequest): (r: Option<HttpError>)
    ensures r.None? <==> (b.status == "received" || b.status == "overdue") && data.amount <= b.total - b.amountPaid
    ensures b.status != "received" && b.status != "overdue" ==>
      r == Some(HttpError(400, "Payments can only be recorded for received or overdue bills"))
    ensures (b.status == "received" || b.status == "overdue") && data.amount > b.total - b.amountPaid ==>
      r == Some(HttpError(400, OverpaymentDetail(data.amount, b.total - b.amountPaid)))
  {
    if b.status != "received" && b.status != "overdue" then
      Some(HttpError(400, "Payments can only be recorded for received or overdue bills"))
    else if data.amount > b.total - b.amountPaid then
      Some(HttpError(400, OverpaymentDetail(data.amount, b.total - b.amountPaid)))
    else None
  }

  /** The over-payment detail, naming the amount and the balance due as
      Python prints the two floats. */
  function OverpaymentDetail(amount: int, balanceDue: int): string {
    "Payment amount (" + CentsToString(amount) + ") exceeds balance due (" + CentsToString(balanceDue) + ")"
  }

  /** An accepted payment never takes `amount_paid` past the total, adds
      exactly its amount, and marks the bill paid exactly when it is
      covered. */
  lemma PaymentKeepsWithinTotal(b: Bill, data: PaymentRequest)
    requires PaymentWellFormed(data) && PaymentCheck(b, data).None?
    requires 0 <= b.amountPaid <= b.total
    ensures var after := Paid(b, PaymentOf(data));
      && b.amountPaid < after.amountPaid <= after.total == b.total
      && after.amountPaid == b.amountPaid + data.amount
      && (after.status == "paid" <==> after.amountPaid == b.total)
      && after.items == b.items && after.payments == b.payments + [PaymentOf(data)]
  {
  }

  // ---- Listing ----

  /** The filters of `list_bills` (status and vendor only when truthy). */
  predicate BillMatches(b: Bill, status: Option<string>, vendorId: Option<int>) {
    && (status.Some? && status.value != "" ==> b.status == status.value)
    && (Truthy(vendorId) ==> b.vendorId == vendorId.value)
  }

  function MatchingBills(bills: seq<Bill>, status: Option<string>, vendorId: Option<int>): (r: seq<Bill>)
    ensures forall b :: b in r <==> b in bills && BillMatches(b, status, vendorId)
  {
    if bills == [] then []
    else
      var b := bills[|bills| - 1];
      assert forall x :: x in bills <==> x in bills[..|bills| - 1] || x == b;
      MatchingBills(bills[..|bills| - 1], status, vendorId) + (if BillMatches(b, status, vendorId) then [b] else [])
  }

  /** Ids increase along the sequence. */
  predicate IdsIncreasing(bills: seq<Bill>) {
    forall i, j :: 0 <= i < j < |bills| ==> bills[i].id < bills[j].id
  }

  /** Filtering keeps the bills in storage order, so ids still increase. */
  lemma {:induction false} MatchingKeepsOrder(bills: seq<Bill>, status: Option<string>, vendorId: Option<int>)
    requires IdsIncreasing(bills)
    ensures IdsIncreasing(MatchingBills(bills, status, vendorId))
  {
    if bills != [] {
      var prefix := bills[..|bills| - 1];
      var b := bills[|bills| - 1];
      MatchingKeepsOrder(prefix, status, vendorId);
      var rest := MatchingBills(prefix, status, vendorId);
      forall x | x in rest ensures x.id < b.id {
        var k :| 0 <= k < |prefix| && prefix[k] == x;
        assert bills[k] == x;
      }
      var r := MatchingBills(bills, status, vendorId);
      assert r == rest + (if BillMatches(b, status, vendorId) then [b] else []);
      assert IdsIncreasing(rest);
      forall i, j | 0 <= i < j < |r| ensures r[i].id < r[j].id {
        if j < |rest| {
          assert r[i] == rest[i] && r[j] == rest[j];
        } else {
          assert r[i] == rest[i] && rest[i] in rest && r[j] == b;
        }
      }
    }
  }

  const ListPageCap := 100

  /** `list_bills`: the count of matching bills and one page of them. */
  function ListBills(bills: seq<Bill>, status: Option<string>, vendorId: Option<int>, skip: nat, limit: nat)
    : Result<(nat, seq<Bill>), HttpError>
  {
    if status.Some? && status.value != "" && status.value !in BillStatuses then
      Err(HttpError(400, "Invalid status filter"))
    else
      var matching := MatchingBills(bills, status, vendorId);
      Ok((|matching|, Page(Reversed(matching), skip, if limit < ListPageCap then limit else ListPageCap)))
  }

  /** The page lists matching bills only, at most 100 of them, and the
      count covers all matching bills; only an unknown status is refused. */
  lemma ListBillsMatch(bills: seq<Bill>, status: Option<string>, vendorId: Option<int>, skip: nat, limit: nat)
    ensures var r := ListBills(bills, status, vendorId, skip, limit);
      && (r.Err? <==> status.Some? && status.value != "" && status.value !in BillStatuses)
      && (r.Ok? ==>
        && r.value.0 == |MatchingBills(bills, status, vendorId)|
        && |r.value.1| <= ListPageCap && |r.value.1| <= limit
        && (forall b :: b in r.value.1 ==> b in bills && BillMatches(b, status, vendorId)))
  {
    var r := ListBills(bills, status, vendorId, skip, limit);
    if r.Ok? {
      var matching := MatchingBills(bills, status, vendorId);
      var page := r.value.1;
      forall b | b in page ensures b in bills && BillMatches(b, status, vendorId) {
        var i :| 0 <= i < |page| && page[i] == b;
        assert b == matching[|matching| - 1 - (skip + i)];
      }
    }
  }

  /** The page lists the newest (highest id) bills first. */
  lemma ListBillsNewestFirst(bills: seq<Bill>, status: Option<string>, vendorId: Option<int>, skip: nat, limit: nat)
    requires IdsIncreasing(bills)
    ensures var r := ListBills(bills, status, vendorId, skip, limit);
      r.Ok? ==> forall i, j :: 0 <= i < j < |r.value.1| ==> r.value.1[i].id > r.value.1[j].id
  {
    var r := ListBills(bills, status, vendorId, skip, limit);
    if r.Ok? {
      var matching := MatchingBills(bills, status, vendorId);
      MatchingKeepsOrder(bills, status, vendorId);
      assert IdsIncreasing(matching);
      var page := r.value.1;
      forall i, j | 0 <= i < j < |page| ensures page[i].id > page[j].id {
        var x := |matching| - 1 - (skip + i);
        var y := |matching| - 1 - (skip + j);
        assert page[i] == matching[x] && page[j] == matching[y];
        assert 0 <= y < x < |matching|;
        assert matching[y].id < matching[x].id;
      }
    }
  }

  // ---- The store ----

  class BillStore {
    var bills: seq<Bill>
    var nextBillId: nat

    /** Ids increase in storage order and stay below the next id; every
        bill's totals agree with its items and nothing negative is paid. */
    ghost predicate Valid()
      reads this
    {
      && (forall i, j :: 0 <= i < j < |bills| ==> bills[i].id < bills[j].id)
      && (forall b :: b in bills ==> b.id < nextBillId && TotalsConsistent(b) && b.amountPaid >= 0)
    }

    constructor ()
      ensures Valid() && bills == [] && nextBillId == 1
    {
      bills := [];
      nextBillId := 1;
    }

    /** Position of the bill with id `id`. */
    function IndexOf(id: int): (r: Option<nat>)
      reads this
      ensures r.Some? ==> r.value < |bills| && bills[r.value].id == id
      ensures r.None? <==> forall b :: b in bills ==> b.id != id
    {
      BillIndex(bills, id)
    }

    /** `create_bill` */
    method CreateBill(accounts: seq<Account>, vendors: set<int>, data: BillCreate) returns (r: Result<(nat, string), HttpError>)
      requires Valid()
      modifies this
      ensures Valid()
      ensures var check := CreateCheck(accounts, vendors, data);
        && (check.Some? ==> r == Err(check.value) && bills == old(bills) && nextBillId == old(nextBillId))
        && (check.None? ==>
              var number := NextBillNumber(old(bills));
              && r == Ok((old(nextBillId), number))
              && bills == old(bills) + [NewBill(old(nextBillId), number, data)]
              && nextBillId == old(nextBillId) + 1)
    {
      var header := HeaderCheck(accounts, vendors, data);
      if header.Some? {
        return Err(header.value);
      }
      var missing := CheckItemAccounts(accounts, data.items);
      if missing.Some? {
        return Err(missing.value);
      }
      var number := NextBillNumber(bills);
      var b := NewBill(nextBillId, number, data);
      NewBillSpec(nextBillId, number, data);
      bills := bills + [b];
      r := Ok((nextBillId, number));
      nextBillId := nextBillId + 1;
    }

    /** `get_bill` */
    function GetBill(id: int): (r: Result<Bill, HttpError>)
      reads this
      ensures r.Err? <==> forall b :: b in bills ==> b.id != id
      ensures r.Err? ==> r.error == BillNotFound
      ensures r.Ok? ==> r.value in bills && r.value.id == id
    {
      var k := IndexOf(id);
      if k.None? then Err(BillNotFound) else Ok(bills[k.value])
    }

    /** `update_bill`: only draft or received bills may change. */
    method UpdateBill(accounts: seq<Account>, vendors: set<int>, id: int, data: BillUpdate) returns (r: Result<(), HttpError>)
      requires Valid()
      modifies this
      ensures Valid()
      ensures nextBillId == old(nextBillId)
      ensures !UpdateWellFormed(data) ==> r == Err(ValidationError)
      ensures UpdateWellFormed(data) && BillIndex(old(bills), id).None? ==> r == Err(BillNotFound)
      ensures r.Err? ==> bills == old(bills)
      ensures UpdateWellFormed(data) && BillIndex(old(bills), id).Some? ==>
        var k := BillIndex(old(bills), id).value;
        var b := old(bills)[k];
        if b.status != "draft" && b.status != "received" then
          r == Err(HttpError(400, "Only draft or received bills can be edited"))
        else if UpdateCheck(accounts, vendors, data).Some? then
          r == Err(UpdateCheck(accounts, vendors, data).value)
        else
          r == Ok(()) && bills == old(bills)[k := Updated(b, data)]
    {
      if !UpdateWellFormed(data) {
        return Err(ValidationError);
      }
      var k := IndexOf(id);
      if k.None? {
        return Err(BillNotFound);
      }
      var b := bills[k.value];
      if b.status != "draft" && b.status != "received" {
        return Err(HttpError(400, "Only draft or received bills can be edited"));
      }
      if data.vendorId.Some? && data.vendorId.value !in vendors {
        return Err(HttpError(400, "Vendor not found"));
      }
      if data.expenseAccountId.Some? && data.expenseAccountId.value != 0
         && AccountById(accounts, data.expenseAccountId.value).None? {
        return Err(HttpError(400, "Expense account not found"));
      }
      if data.items.Some? {
        var missing := CheckItemAccounts(accounts, data.items.value);
        if missing.Some? {
          return Err(missing.value);
        }
      }
      UpdatedSpec(b, data);
      Replace(k.value, Updated(b, data));
      return Ok(());
    }

    /** `update_bill_status`: any valid status may be set; only the move
        from draft to received posts the bill to the journal. */
    method UpdateBillStatus(books: Books, id: int, status: string) returns (r: Result<string, HttpError>)
      requires Valid() && books.Valid()
      modifies this, books
      ensures Valid() && books.Valid()
      ensures nextBillId == old(nextBillId)
      ensures books.accounts == old(books.accounts) && books.nextAccountId == old(books.nextAccountId)
      ensures status !in BillStatuses ==> r == Err(ValidationError)
      ensures status in BillStatuses && BillIndex(old(bills), id).None? ==> r == Err(BillNotFound)
      ensures r.Err? ==> bills == old(bills) && books.entries == old(books.entries)
      ensures r.Ok? <==> status in BillStatuses && BillIndex(old(bills), id).Some?
      ensures r.Ok? ==>
        var k := BillIndex(old(bills), id).value;
        var b := old(bills)[k].(status := status);
        && r == Ok("Bill marked as " + status)
        && bills == old(bills)[k := b]
        && (old(bills)[k].status == "draft" && status == "received" && BillReceivedPosts(old(books.accounts), b) ==>
              books.entries == old(books.entries)
                + [BillReceivedEntry(b, old(books.nextEntryId), BillReceivedLines(old(books.accounts), b).value)])
        && (!(old(bills)[k].status == "draft" && status == "received" && BillReceivedPosts(old(books.accounts), b)) ==>
              books.entries == old(books.entries))
    {
      if status !in BillStatuses {
        return Err(ValidationError);
      }
      var k := IndexOf(id);
      if k.None? {
        return Err(BillNotFound);
      }
      var before := bills[k.value];
      var b := before.(status := status);
      Replace(k.value, b);
      if status == "received" && before.status == "draft" {
        var posted := books.CreateJeForBillReceived(b);
      }
      return Ok("Bill marked as " + status);
    }

    /** `delete_bill`: only drafts may be deleted. */
    method DeleteBill(id: int) returns (r: Result<string, HttpError>)
      requires Valid()
      modifies this
      ensures Valid()
      ensures nextBillId == old(nextBillId)
      ensures BillIndex(old(bills), id).None? ==> r == Err(BillNotFound)
      ensures r.Err? ==> bills == old(bills)
      ensures BillIndex(old(bills), id).Some? ==>
        var k := BillIndex(old(bills), id).value;
        if old(bills)[k].status != "draft" then r == Err(HttpError(400, "Only draft bills can be deleted"))
        else r == Ok("Bill deleted") && bills == old(bills)[..k] + old(bills)[k + 1..]
    {
      var k := IndexOf(id);
      if k.None? {
        return Err(BillNotFound);
      }
      if bills[k.value].status != "draft" {
        return Err(HttpError(400, "Only draft bills can be deleted"));
      }
      Remove(k.value);
      return Ok("Bill deleted");
    }

    /** `record_bill_payment`: the payment is stored, the bill's paid amount
        and status follow, and the payment is posted to the journal. */
    method RecordBillPayment(books: Books, id: int, data: PaymentRequest) returns (r: Result<Bill, HttpError>)
      requires Valid() && books.Valid()
      modifies this, books
      ensures Valid() && books.Valid()
      ensures nextBillId == old(nextBillId)
      ensures books.accounts == old(books.accounts) && books.nextAccountId == old(books.nextAccountId)
      ensures !PaymentWellFormed(data) ==> r == Err(ValidationError)
      ensures PaymentWellFormed(data) && BillIndex(old(bills), id).None? ==> r == Err(BillNotFound)
      ensures r.Err? ==> bills == old(bills) && books.entries == old(books.entries)
      ensures PaymentWellFormed(data) && BillIndex(old(bills), id).Some? ==>
        var k := BillIndex(old(bills), id).value;
        var b := old(bills)[k];
        var p := PaymentOf(data);
        if PaymentCheck(b, data).Some? then r == Err(PaymentCheck(b, data).value)
        else
          && r == Ok(Paid(b, p))
          && bills == old(bills)[k := Paid(b, p)]
          && var lines := BillPaymentLines(old(books.accounts), Paid(b, p), p);
             if lines.Some? then
               books.entries == old(books.entries) + [BillPaymentEntry(Paid(b, p), p, old(books.nextEntryId), lines.value)]
             else books.entries == old(books.entries)
    {
      if !PaymentWellFormed(data) {
        return Err(ValidationError);
      }
      var k := IndexOf(id);
      if k.None? {
        return Err(BillNotFound);
      }
      var b := bills[k.value];
      var check := PaymentCheck(b, data);
      if check.Some? {
        return Err(check.value);
      }
      var p := PaymentOf(data);
      var after := Paid(b, p);
      Replace(k.value, after);
      var posted := books.CreateJeForBillPayment(after, p);
      return Ok(after);
    }

    /** Stores a changed bill in place of the one with its id. */
    method Replace(k: nat, b: Bill)
      requires Valid() && k < |bills| && b.id == bills[k].id
      requires TotalsConsistent(b) && b.amountPaid >= 0
      modifies this
      ensures Valid() && bills == old(bills)[k := b] && nextBillId == old(nextBillId)
    {
      bills := bills[k := b];
    }

    method Remove(k: nat)
      requires Valid() && k < |bills|
      modifies this
      ensures Valid() && bills == old(bills)[..k] + old(bills)[k + 1..] && nextBillId == old(nextBillId)
    {
      RemoveKeepsOrder(bills, k);
      bills := bills[..k] + bills[k + 1..];
    }
  }

  function BillIndex(bills: seq<Bill>, id: int): (r: Option<nat>)
    ensures r.Some? ==> r.value < |bills| && bills[r.value].id == id
    ensures r.None? <==> forall b :: b in bills ==> b.id != id
  {
    if bills == [] then None
    else if bills[0].id == id then Some(0)
    else
      var rest := BillIndex(bills[1..], id);
      if rest.Some? then Some(rest.value + 1) else None
  }

  lemma RemoveKeepsOrder(bills: seq<Bill>, k: nat)
    requires k < |bills| && forall i, j :: 0 <= i < j < |bills| ==> bills[i].id < bills[j].id
    ensures var r := bills[..k] + bills[k + 1..];
      && (forall i, j :: 0 <= i < j < |r| ==> r[i].id < r[j].id)
      && (forall b :: b in r ==> b in bills)
  {
    var r := bills[..k] + bills[k + 1..];
    forall i, j | 0 <= i < j < |r| ensures r[i].id < r[j].id {
      var i' := if i < k then i else i + 1;
      var j' := if j < k then j else j + 1;
      assert r[i] == bills[i'] && r[j] == bills[j'];
    }
  }
}
