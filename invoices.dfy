/** Accounts receivable: the invoice store and its endpoints. Invoices are
    drafted, sent and paid; they are not posted to the journal. */
module InvoicesApi {
  import opened Common
  import opened Records
  import opened Ordering
  import opened Totals
  import opened Numbering

  const InvoiceStatuses: seq<string> := ["draft", "sent", "paid", "overdue"]

  const InvoiceNotFound := HttpError(404, "Invoice not found")

  /** `InvoiceItemCreate` */
  datatype ItemRequest = ItemRequest(description: string, quantity: real, unitPrice: real)

  /** `InvoiceCreate` */
  datatype InvoiceCreate = InvoiceCreate(
    customerId: int,
    invoiceDate: Date,
    dueDate: Date,
    applyGst: bool,
    notes: Option<string>,
    items: seq<ItemRequest>)

  /** `InvoiceUpdate`: `None` leaves a field as it is. */
  datatype InvoiceUpdate = InvoiceUpdate(
    customerId: Option<int>,
    invoiceDate: Option<Date>,
    dueDate: Option<Date>,
    applyGst: Option<bool>,
    notes: Option<string>,
    items: Option<seq<ItemRequest>>)

  predicate ItemWellFormed(i: ItemRequest) {
    && 1 <= |i.description| <= 500
    && 0.0 < i.quantity < 1000000.0
    && 0.0 < i.unitPrice < 1000000000.0
  }

  /** The schema of a new invoice: at least one well-formed item, notes of
      at most 2000 characters, and a due date not before the invoice date. */
  predicate CreateWellFormed(data: InvoiceCreate) {
    && |data.items| >= 1
    && (forall i :: i in data.items ==> ItemWellFormed(i))
    && MaxLength(data.notes, 2000)
    && DateLe(data.invoiceDate, data.dueDate)
  }

  predicate UpdateWellFormed(data: InvoiceUpdate) {
    && MaxLength(data.notes, 2000)
    && (data.items.Some? ==> forall i :: i in data.items.value ==> ItemWellFormed(i))
  }

  /** The stored item: its amount is `round(quantity * unit_price, 2)`. */
  function ItemOf(r: ItemRequest): InvoiceItem {
    InvoiceItem(r.description, r.quantity, r.unitPrice, LineAmount(r.quantity, r.unitPrice))
  }

  function ItemsOf(reqs: seq<ItemRequest>): (r: seq<InvoiceItem>)
    ensures |r| == |reqs| && forall i :: 0 <= i < |reqs| ==> r[i] == ItemOf(reqs[i])
  {
    seq(|reqs|, i requires 0 <= i < |reqs| => ItemOf(reqs[i]))
  }

  /** The amounts `_calc_totals` sums for these items. */
  function AmountsOf(items: seq<InvoiceItem>): (r: seq<int>)
    ensures |r| == |items| && forall i :: 0 <= i < |items| ==> r[i] == LineAmount(items[i].quantity, items[i].unitPrice)
  {
    seq(|items|, i requires 0 <= i < |items| => LineAmount(items[i].quantity, items[i].unitPrice))
  }

  /** An invoice's totals are what `_calc_totals` gives for its items at its
      GST setting, and every item carries its own rounded amount. */
  ghost predicate TotalsConsistent(inv: Invoice) {
    var t := CalcTotals(AmountsOf(inv.items), inv.gstRate > 0);
    && inv.subtotal == t.subtotal && inv.gstRate == t.gstRate && inv.gstAmount == t.gstAmount && inv.total == t.total
    && (forall item :: item in inv.items ==>
          item.quantity > 0.0 && item.unitPrice > 0.0 && item.amount == LineAmount(item.quantity, item.unitPrice))
  }

  /** A consistent invoice bills the sum of its item amounts plus GST, and
      neither is negative. */
  lemma ConsistentInvoiceTotals(inv: Invoice)
    requires TotalsConsistent(inv)
    ensures inv.total == inv.subtotal + inv.gstAmount
    ensures inv.subtotal == Sum(AmountsOf(inv.items)) >= 0 && inv.gstAmount >= 0
    ensures inv.gstRate == 0 ==> inv.gstAmount == 0
  {
    forall a | a in AmountsOf(inv.items) ensures a >= 0 {
      var i :| 0 <= i < |inv.items| && AmountsOf(inv.items)[i] == a;
      assert inv.items[i] in inv.items;
      LineAmountNonNegative(inv.items[i].quantity, inv.items[i].unitPrice);
    }
    CalcTotalsSpec(AmountsOf(inv.items), inv.gstRate > 0);
  }

  /** The number `_next_invoice_number` gives after these invoices. */
  function NextInvoiceNumber(invoices: seq<Invoice>): string {
    NextNumber("INV", if invoices == [] then None else Some(invoices[|invoices| - 1].invoiceNumber))
  }

  /** The invoice `create_invoice` stores: an unpaid draft with totals from
      `_calc_totals`. */
  function NewInvoice(id: nat, number: string, data: InvoiceCreate): Invoice {
    var items := ItemsOf(data.items);
    var t := CalcTotals(AmountsOf(items), data.applyGst);
    Invoice(id, number, data.customerId, data.invoiceDate, data.dueDate, None, "draft", t.subtotal, t.gstRate,
            t.gstAmount, t.total, data.notes, items)
  }

  /** A new invoice is an unpaid draft with one stored item per requested
      item and totals consistent with its items. */
  lemma NewInvoiceSpec(id: nat, number: string, data: InvoiceCreate)
    requires CreateWellFormed(data)
    ensures var inv := NewInvoice(id, number, data);
      && inv.status == "draft" && inv.paidDate.None?
      && |inv.items| == |data.items| >= 1
      && TotalsConsistent(inv)
      && (inv.gstRate > 0 <==> data.applyGst)
  {
    var inv := NewInvoice(id, number, data);
    forall item | item in inv.items ensures item.quantity > 0.0 && item.unitPrice > 0.0 {
      var i :| 0 <= i < |inv.items| && inv.items[i] == item;
      assert data.items[i] in data.items;
    }
  }

  /** The invoice after `update_invoice`: given fields replace the stored
      ones; new items replace all items and recompute the totals; a GST
      toggle alone recomputes them from the stored items. */
  function Updated(inv: Invoice, data: InvoiceUpdate): Invoice {
    var applyGst := if data.applyGst.Some? then data.applyGst.value else inv.gstRate > 0;
    var items := if data.items.Some? then ItemsOf(data.items.value) else inv.items;
    var t := CalcTotals(AmountsOf(items), applyGst);
    var recompute := data.items.Some? || data.applyGst.Some?;
    inv.(customerId := if data.customerId.Some? then data.customerId.value else inv.customerId,
         invoiceDate := if data.invoiceDate.Some? then data.invoiceDate.value else inv.invoiceDate,
         dueDate := if data.dueDate.Some? then data.dueDate.value else inv.dueDate,
         notes := if data.notes.Some? then data.notes else inv.notes,
         items := items,
         subtotal := if recompute then t.subtotal else inv.subtotal,
         gstRate := if recompute then t.gstRate else inv.gstRate,
         gstAmount := if recompute then t.gstAmount else inv.gstAmount,
         total := if recompute then t.total else inv.total)
  }

  /** An update keeps the invoice's identity, number, status and paid date,
      and keeps its totals consistent with its items. */
  lemma UpdatedSpec(inv: Invoice, data: InvoiceUpdate)
    requires TotalsConsistent(inv) && UpdateWellFormed(data)
    ensures var u := Updated(inv, data);
      && u.id == inv.id && u.invoiceNumber == inv.invoiceNumber && u.status == inv.status
      && u.paidDate == inv.paidDate
      && TotalsConsistent(u)
      && (data.items.None? && data.applyGst.None? ==> u.items == inv.items && u.total == inv.total)
  {
    var u := Updated(inv, data);
    if data.items.Some? {
      forall item | item in u.items
        ensures item.quantity > 0.0 && item.unitPrice > 0.0 && item.amount == LineAmount(item.quantity, item.unitPrice)
      {
        var i :| 0 <= i < |u.items| && u.items[i] == item;
        assert data.items.value[i] in data.items.value;
      }
    }
  }

  /** The invoice after `update_invoice_status` on day `today`: marking it
      paid keeps an earlier paid date or records today; any other status
      clears the paid date. */
  function WithStatus(inv: Invoice, status: string, today: Date): Invoice {
    inv.(status := status,
         paidDate := if status == "paid" then (if inv.paidDate.None? then Some(today) else inv.paidDate) else None)
  }

  /** An invoice has a paid date exactly when it is marked paid. */
  predicate PaidDateAgrees(inv: Invoice) {
    inv.paidDate.Some? <==> inv.status == "paid"
  }

  lemma WithStatusSpec(inv: Invoice, status: string, today: Date)
    ensures var u := WithStatus(inv, status, today);
      && u.status == status
      && PaidDateAgrees(u)
      && (status == "paid" && inv.paidDate.Some? ==> u.paidDate == inv.paidDate)
      && (status == "paid" && inv.paidDate.None? ==> u.paidDate == Some(today))
      && u.items == inv.items && u.total == inv.total
  {
  }

  // ---- Listing ----

  /** The filters of `list_invoices` (status and customer only when truthy). */
  predicate InvoiceMatches(inv: Invoice, status: Option<string>, customerId: Option<int>) {
    && (status.Some? && status.value != "" ==> inv.status == status.value)
    && (Truthy(customerId) ==> inv.customerId == customerId.value)
  }

  function MatchingInvoices(invoices: seq<Invoice>, status: Option<string>, customerId: Option<int>): (r: seq<Invoice>)
    ensures forall inv :: inv in r <==> inv in invoices && InvoiceMatches(inv, status, customerId)
  {
    if invoices == [] then []
    else
      var inv := invoices[|invoices| - 1];
      assert forall x :: x in invoices <==> x in invoices[..|invoices| - 1] || x == inv;
      MatchingInvoices(invoices[..|invoices| - 1], status, customerId)
        + (if InvoiceMatches(inv, status, customerId) then [inv] else [])
  }

  /** Ids increase along the sequence. */
  predicate IdsIncreasing(invoices: seq<Invoice>) {
    forall i, j :: 0 <= i < j < |invoices| ==> invoices[i].id < invoices[j].id
  }

  /** Filtering keeps the invoices in storage order, so ids still increase. */
  lemma {:induction false} MatchingKeepsOrder(invoices: seq<Invoice>, status: Option<string>, customerId: Option<int>)
    requires IdsIncreasing(invoices)
    ensures IdsIncreasing(MatchingInvoices(invoices, status, customerId))
  {
    if invoices != [] {
      var prefix := invoices[..|invoices| - 1];
      var inv := invoices[|invoices| - 1];
      MatchingKeepsOrder(prefix, status, customerId);
      var rest := MatchingInvoices(prefix, status, customerId);
      forall x | x in rest ensures x.id < inv.id {
        var k :| 0 <= k < |prefix| && prefix[k] == x;
        assert invoices[k] == x;
      }
      var r := MatchingInvoices(invoices, status, customerId);
      assert r == rest + (if InvoiceMatches(inv, status, customerId) then [inv] else []);
      assert IdsIncreasing(rest);
      forall i, j | 0 <= i < j < |r| ensures r[i].id < r[j].id {
        if j < |rest| {
          assert r[i] == rest[i] && r[j] == rest[j];
        } else {
          assert r[i] == rest[i] && rest[i] in rest && r[j] == inv;
        }
      }
    }
  }

  const ListPageCap := 100

  /** `list_invoices`: the count of matching invoices and one page of them,
      newest first. */
  function ListInvoices(invoices: seq<Invoice>, status: Option<string>, customerId: Option<int>, skip: nat, limit: nat)
    : Result<(nat, seq<Invoice>), HttpError>
  {
    if status.Some? && status.value != "" && status.value !in InvoiceStatuses then
      Err(HttpError(400, "Invalid status filter"))
    else
      var matching := MatchingInvoices(invoices, status, customerId);
      Ok((|matching|, Page(Reversed(matching), skip, if limit < ListPageCap then limit else ListPageCap)))
  }

  /** The page lists matching invoices only, at most 100 of them, and the
      count covers all matching invoices; only an unknown status is refused. */
  lemma ListInvoicesMatch(invoices: seq<Invoice>, status: Option<string>, customerId: Option<int>, skip: nat, limit: nat)
    ensures var r := ListInvoices(invoices, status, customerId, skip, limit);
      && (r.Err? <==> status.Some? && status.value != "" && status.value !in InvoiceStatuses)
      && (r.Ok? ==>
        && r.value.0 == |MatchingInvoices(invoices, status, customerId)|
        && |r.value.1| <= ListPageCap && |r.value.1| <= limit
        && (forall inv :: inv in r.value.1 ==> inv in invoices && InvoiceMatches(inv, status, customerId)))
  {
    var r := ListInvoices(invoices, status, customerId, skip, limit);
    if r.Ok? {
      var matching := MatchingInvoices(invoices, status, customerId);
      var page := r.value.1;
      forall inv | inv in page ensures inv in matching {
        var i :| 0 <= i < |page| && page[i] == inv;
        assert inv == matching[|matching| - 1 - (skip + i)];
      }
    }
  }

  /** The page lists the newest (highest id) invoices first. */
  lemma ListInvoicesNewestFirst(invoices: seq<Invoice>, status: Option<string>, customerId: Option<int>, skip: nat, limit: nat)
    requires IdsIncreasing(invoices)
    ensures var r := ListInvoices(invoices, status, customerId, skip, limit);
      r.Ok? ==> forall i, j :: 0 <= i < j < |r.value.1| ==> r.value.1[i].id > r.value.1[j].id
  {
    var r := ListInvoices(invoices, status, customerId, skip, limit);
    if r.Ok? {
      var matching := MatchingInvoices(invoices, status, customerId);
      MatchingKeepsOrder(invoices, status, customerId);
      assert IdsIncreasing(matching);
      var page := r.value.1;
      forall i, j | 0 <= i < j < |page| ensures page[i].id > page[j].id {
        var x := |matching| - 1 - (skip + i);
        var y := |matching| - 1 - (skip + j);
        assert page[i] == matching[x] && page[j] == matching[y];
        assert 0 <= y < x < |matching|;
        assert matching[y].id < matching[x].id;
      }
    }
  }

  function InvoiceIndex(invoices: seq<Invoice>, id: int): (r: Option<nat>)
    ensures r.Some? ==> r.value < |invoices| && invoices[r.value].id == id
    ensures r.None? <==> forall inv :: inv in invoices ==> inv.id != id
  {
    if invoices == [] then None
    else if invoices[0].id == id then Some(0)
    else
      var rest := InvoiceIndex(invoices[1..], id);
      if rest.Some? then Some(rest.value + 1) else None
  }

  lemma RemoveKeepsOrder(invoices: seq<Invoice>, k: nat)
    requires k < |invoices| && IdsIncreasing(invoices)
    ensures IdsIncreasing(invoices[..k] + invoices[k + 1..])
    ensures forall inv :: inv in invoices[..k] + invoices[k + 1..] ==> inv in invoices
  {
    var r := invoices[..k] + invoices[k + 1..];
    forall i, j | 0 <= i < j < |r| ensures r[i].id < r[j].id {
      var i' := if i < k then i else i + 1;
      var j' := if j < k then j else j + 1;
      assert r[i] == invoices[i'] && r[j] == invoices[j'];
    }
  }

  // ---- The store ----

  class InvoiceStore {
    var invoices: seq<Invoice>
    var nextInvoiceId: nat

    /** Ids increase in storage order and stay below the next id; every
        invoice's totals agree with its items, and it has a paid date
        exactly when it is paid. */
    ghost predicate Valid()
      reads this
    {
      && IdsIncreasing(invoices)
      && (forall inv :: inv in invoices ==> inv.id < nextInvoiceId && TotalsConsistent(inv) && PaidDateAgrees(inv))
    }

    constructor ()
      ensures Valid() && invoices == [] && nextInvoiceId == 1
    {
      invoices := [];
      nextInvoiceId := 1;
    }

    /** `create_invoice` */
    method CreateInvoice(customers: set<int>, data: InvoiceCreate) returns (r: Result<(nat, string), HttpError>)
      requires Valid()
      modifies this
      ensures Valid()
      ensures !CreateWellFormed(data) ==> r == Err(ValidationError)
      ensures CreateWellFormed(data) && data.customerId !in customers ==> r == Err(HttpError(400, "Customer not found"))
      ensures r.Err? ==> invoices == old(invoices) && nextInvoiceId == old(nextInvoiceId)
      ensures r.Ok? <==> CreateWellFormed(data) && data.customerId in customers
      ensures r.Ok? ==>
        var number := NextInvoiceNumber(old(invoices));
        && r == Ok((old(nextInvoiceId), number))
        && invoices == old(invoices) + [NewInvoice(old(nextInvoiceId), number, data)]
        && nextInvoiceId == old(nextInvoiceId) + 1
    {
      if !CreateWellFormed(data) {
        return Err(ValidationError);
      }
      if data.customerId !in customers {
        return Err(HttpError(400, "Customer not found"));
      }
      var number := NextInvoiceNumber(invoices);
      var inv := NewInvoice(nextInvoiceId, number, data);
      NewInvoiceSpec(nextInvoiceId, number, data);
      invoices := invoices + [inv];
      r := Ok((nextInvoiceId, number));
      nextInvoiceId := nextInvoiceId + 1;
    }

    /** `get_invoice` */
    function GetInvoice(id: int): (r: Result<Invoice, HttpError>)
      reads this
      ensures r.Err? <==> forall inv :: inv in invoices ==> inv.id != id
      ensures r.Err? ==> r.error == InvoiceNotFound
      ensures r.Ok? ==> r.value in invoices && r.value.id == id
    {
      var k := InvoiceIndex(invoices, id);
      if k.None? then Err(InvoiceNotFound) else Ok(invoices[k.value])
    }

    /** `update_invoice`: only drafts may change. */
    method UpdateInvoice(customers: set<int>, id: int, data: InvoiceUpdate) returns (r: Result<(), HttpError>)
      requires Valid()
      modifies this
      ensures Valid()
      ensures nextInvoiceId == old(nextInvoiceId)
      ensures !UpdateWellFormed(data) ==> r == Err(ValidationError)
      ensures UpdateWellFormed(data) && InvoiceIndex(old(invoices), id).None? ==> r == Err(InvoiceNotFound)
      ensures r.Err? ==> invoices == old(invoices)
      ensures UpdateWellFormed(data) && InvoiceIndex(old(invoices), id).Some? ==>
        var k := InvoiceIndex(old(invoices), id).value;
        var inv := old(invoices)[k];
        if inv.status != "draft" then r == Err(HttpError(400, "Only draft invoices can be edited"))
        else if data.customerId.Some? && data.customerId.value !in customers then
          r == Err(HttpError(400, "Customer not found"))
        else r == Ok(()) && invoices == old(invoices)[k := Updated(inv, data)]
    {
      if !UpdateWellFormed(data) {
        return Err(ValidationError);
      }
      var k := InvoiceIndex(invoices, id);
      if k.None? {
        return Err(InvoiceNotFound);
      }
      var inv := invoices[k.value];
      if inv.status != "draft" {
        return Err(HttpError(400, "Only draft invoices can be edited"));
      }
      if data.customerId.Some? && data.customerId.value !in customers {
        return Err(HttpError(400, "Customer not found"));
      }
      UpdatedSpec(inv, data);
      Replace(k.value, Updated(inv, data));
      return Ok(());
    }

    /** `update_invoice_status` on day `today`. */
    method UpdateInvoiceStatus(id: int, status: string, today: Date) returns (r: Result<string, HttpError>)
      requires Valid()
      modifies this
      ensures Valid()
      ensures nextInvoiceId == old(nextInvoiceId)
      ensures status !in InvoiceStatuses ==> r == Err(ValidationError)
      ensures status in InvoiceStatuses && InvoiceIndex(old(invoices), id).None? ==> r == Err(InvoiceNotFound)
      ensures r.Err? ==> invoices == old(invoices)
      ensures r.Ok? <==> status in InvoiceStatuses && InvoiceIndex(old(invoices), id).Some?
      ensures r.Ok? ==>
        var k := InvoiceIndex(old(invoices), id).value;
        && r == Ok("Invoice marked as " + status)
        && invoices == old(invoices)[k := WithStatus(old(invoices)[k], status, today)]
    {
      if status !in InvoiceStatuses {
        return Err(ValidationError);
      }
      var k := InvoiceIndex(invoices, id);
      if k.None? {
        return Err(InvoiceNotFound);
      }
      var inv := invoices[k.value];
      WithStatusSpec(inv, status, today);
      Replace(k.value, WithStatus(inv, status, today));
      return Ok("Invoice marked as " + status);
    }

    /** `delete_invoice`: only drafts may be deleted. */
    method DeleteInvoice(id: int) returns (r: Result<string, HttpError>)
      requires Valid()
      modifies this
      ensures Valid()
      ensures nextInvoiceId == old(nextInvoiceId)
      ensures InvoiceIndex(old(invoices), id).None? ==> r == Err(InvoiceNotFound)
      ensures r.Err? ==> invoices == old(invoices)
      ensures InvoiceIndex(old(invoices), id).Some? ==>
        var k := InvoiceIndex(old(invoices), id).value;
        if old(invoices)[k].status != "draft" then r == Err(HttpError(400, "Only draft invoices can be deleted"))
        else r == Ok("Invoice deleted") && invoices == old(invoices)[..k] + old(invoices)[k + 1..]
    {
      var k := InvoiceIndex(invoices, id);
      if k.None? {
        return Err(InvoiceNotFound);
      }
      if invoices[k.value].status != "draft" {
        return Err(HttpError(400, "Only draft invoices can be deleted"));
      }
      RemoveKeepsOrder(invoices, k.value);
      invoices := invoices[..k.value] + invoices[k.value + 1..];
      return Ok("Invoice deleted");
    }

    /** Stores a changed invoice in place of the one with its id. */
    method Replace(k: nat, inv: Invoice)
      requires Valid() && k < |invoices| && inv.id == invoices[k].id
      requires TotalsConsistent(inv) && PaidDateAgrees(inv)
      modifies this
      ensures Valid() && invoices == old(invoices)[k := inv] && nextInvoiceId == old(nextInvoiceId)
    {
      invoices := invoices[k := inv];
    }
  }
}
