/**
 * The billing controller (backend/controllers/billingController.js):
 * creating a bill together with its invoice and its audit entry, taking
 * payments against a bill, and the bill, invoice and audit-log queries.
 */
module Billing {
  import opened Common
  import opened Models
  import opened Store
  import Text
  import Query
  import Sorting

  // ---------------------------------------------------------------- Line items

  /** The sum of the stored items' `totalPrice`. */
  function SumPrices(items: seq<LineItem>): int {
    if items == [] then 0 else SumPrices(items[..|items| - 1]) + items[|items| - 1].totalPrice
  }

  /** A client item with its `totalPrice` added (the spread `{ ...item, totalPrice }`). */
  function PriceItem(item: ItemInput): LineItem {
    LineItem(item.description, item.quantity, item.unitPrice, item.quantity * item.unitPrice, item.treatmentId)
  }

  /** The items `createBill` stores for the items it was sent. */
  function Priced(items: seq<ItemInput>): seq<LineItem> {
    seq(|items|, i requires 0 <= i < |items| => PriceItem(items[i]))
  }

  /**
   * `items.map(...)` with its running `totalAmount`: each item is priced at
   * quantity times unit price, and the total is the sum of those prices.
   */
  method ProcessItems(items: seq<ItemInput>) returns (processed: seq<LineItem>, totalAmount: int)
    ensures processed == Priced(items)
    ensures forall i :: 0 <= i < |items| ==>
      processed[i].totalPrice == items[i].quantity * items[i].unitPrice
    ensures totalAmount == SumPrices(processed)
  {
    processed := [];
    totalAmount := 0;
    for i := 0 to |items|
      invariant processed == Priced(items[..i])
      invariant totalAmount == SumPrices(processed)
    {
      var item := items[i];
      var totalPrice := item.quantity * item.unitPrice;
      totalAmount := totalAmount + totalPrice;
      var line := LineItem(item.description, item.quantity, item.unitPrice, totalPrice, item.treatmentId);
      assert (processed + [line])[..|processed|] == processed;
      assert Priced(items[..i + 1]) == Priced(items[..i]) + [line];
      processed := processed + [line];
    }
    assert items[..|items|] == items;
  }

  // ---------------------------------------------------------------- createBill

  /** A bill as `createBill` saves it: nothing paid, the whole total still owed. */
  function OpenBill(patient: Id, items: seq<LineItem>, totalAmount: int): (b: Bill)
    ensures LedgerConsistent(b)
    ensures b.status == Unpaid && b.paidAmount == 0 && b.balance == b.totalAmount
  {
    Bill(patient, items, totalAmount, 0, totalAmount, Unpaid, [])
  }

  /** The bill `createBill` saves for `patient` and the client's `items`. */
  function BillFor(patient: Id, items: seq<ItemInput>): Bill {
    OpenBill(patient, Priced(items), SumPrices(Priced(items)))
  }

  /** `generateInvoiceNumber()`: "INV-" followed by the current time in milliseconds. */
  function InvoiceNumber(now: Time): string {
    "INV-" + Text.IntToString(now)
  }

  /** The payload of a successful `createBill`, with the ids of the saved documents. */
  datatype Created = Created(billId: Id, bill: Bill, invoiceId: Id, invoice: Invoice, logId: Id)

  /** Whether an invoice numbered `number` is already stored. */
  ghost predicate NumberTaken(invoices: map<Id, Invoice>, number: string) {
    exists k :: k in invoices && invoices[k].invoiceNumber == number
  }

  /** The `details` text of the audit entry of a new bill. */
  function CreationDetails(totalAmount: int): string {
    "Bill created with total amount " + Text.IntToString(totalAmount)
  }

  /**
   * The second half of `createBill`, after the bill is saved: its invoice
   * is saved under the number derived from the clock, and when that number
   * is taken the unique index makes the save fail with 500 before the audit
   * entry is written.
   */
  method IssueInvoice(db: Db, billId: Id, totalAmount: int, now: Time) returns (r: Result<(Id, Invoice, Id)>)
    requires db.Valid() && billId in db.bills
    modifies db`invoices, db`auditLogs, db`nextId
    ensures db.Valid() && db.bills == old(db.bills)
    ensures r.Ok? <==> !NumberTaken(old(db.invoices), InvoiceNumber(now))
    ensures r.Err? ==>
      r == Err(500, DuplicateKey) && db.invoices == old(db.invoices) && db.auditLogs == old(db.auditLogs)
    ensures r.Ok? ==>
      && r.value.1 == Invoice(billId, InvoiceNumber(now), now, totalAmount, Unpaid)
      && r.value.0 !in old(db.invoices) && db.invoices == old(db.invoices)[r.value.0 := r.value.1]
      && r.value.2 !in old(db.auditLogs)
      && db.auditLogs == old(db.auditLogs)[r.value.2 := AuditLog("CREATE_BILL", billId, None, now, CreationDetails(totalAmount))]
  {
    var number := InvoiceNumber(now);
    var taken := Query.FindOne(db.invoices, NumberedAs(number));
    if taken.Some? {
      return Err(500, DuplicateKey);
    }
    assert forall k :: k in db.invoices ==> db.invoices[k].invoiceNumber != number by {
      forall k | k in db.invoices ensures db.invoices[k].invoiceNumber != number {
        assert !NumberedAs(number)(k, db.invoices[k]);
      }
    }
    var invoice := Invoice(billId, number, now, totalAmount, Unpaid);
    var invoiceId := db.InsertInvoice(invoice);
    var logId := db.InsertAuditLog(AuditLog("CREATE_BILL", billId, None, now, CreationDetails(totalAmount)));
    r := Ok((invoiceId, invoice, logId));
  }

  /**
   * `createBill`. A missing patient or an empty item list is refused with
   * 400 before anything is stored. Otherwise the bill is saved first, then
   * its invoice and its audit entry; when the invoice number is taken the
   * request fails with 500 and the bill stays stored without them.
   */
  method CreateBill(db: Db, patient: Option<Id>, items: seq<ItemInput>, now: Time) returns (r: Result<Created>)
    requires db.Valid()
    modifies db`bills, db`invoices, db`auditLogs, db`nextId
    ensures db.Valid()
    ensures patient.None? || items == [] ==>
      && r == Err(400, "Patient and items are required")
      && db.bills == old(db.bills) && db.invoices == old(db.invoices) && db.auditLogs == old(db.auditLogs)
    ensures patient.Some? && items != [] ==>
      && old(db.nextId) !in old(db.bills)
      && db.bills == old(db.bills)[old(db.nextId) := BillFor(patient.value, items)]
      && (r.Ok? <==> !NumberTaken(old(db.invoices), InvoiceNumber(now)))
    ensures r.Err? && patient.Some? && items != [] ==>
      r == Err(500, DuplicateKey) && db.invoices == old(db.invoices) && db.auditLogs == old(db.auditLogs)
    ensures r.Ok? ==>
      && r.value.billId == old(db.nextId) && r.value.bill == BillFor(patient.value, items)
      && r.value.invoice == Invoice(r.value.billId, InvoiceNumber(now), now, r.value.bill.totalAmount, Unpaid)
      && r.value.invoiceId !in old(db.invoices)
      && db.invoices == old(db.invoices)[r.value.invoiceId := r.value.invoice]
      && r.value.logId !in old(db.auditLogs)
      && db.auditLogs == old(db.auditLogs)[r.value.logId :=
           AuditLog("CREATE_BILL", r.value.billId, None, now, CreationDetails(r.value.bill.totalAmount))]
  {
    if patient.None? || items == [] {
      return Err(400, "Patient and items are required");
    }
    var processed, totalAmount := ProcessItems(items);
    var bill := OpenBill(patient.value, processed, totalAmount);
    var billId := db.InsertBill(bill);
    var issued := IssueInvoice(db, billId, totalAmount, now);
    if issued.Err? {
      return Err(issued.code, issued.message);
    }
    r := Ok(Created(billId, bill, issued.value.0, issued.value.1, issued.value.2));
  }

  /** The filter `{ invoiceNumber: number }`. */
  function NumberedAs(number: string): (Id, Invoice) -> bool {
    (k: Id, v: Invoice) => v.invoiceNumber == number
  }

  // ---------------------------------------------------------------- addPayment

  /** The message of the balance guard of `addPayment`. */
  function ExceedsMessage(balance: int): string {
    "Payment exceeds remaining balance of " + Text.IntToString(balance)
  }

  /**
   * The in-place update of an accepted payment: `paidAmount` grows, the
   * balance is recomputed, the status follows the balance and one
   * `payment_added` entry is pushed onto the bill's own log.
   */
  function Credit(b: Bill, amount: int, paidBy: string, now: Time): Bill {
    var paid := b.paidAmount + amount;
    var balance := b.totalAmount - paid;
    b.(paidAmount := paid, balance := balance,
       status := if balance <= 0 then Paid else Partial,
       auditLogs := b.auditLogs + [PaymentLog("payment_added", amount, paidBy, now)])
  }

  /**
   * `addPayment` on the bill stored under the requested id (None when there
   * is none): the amount and the method are checked before the bill is
   * looked up; a paid bill and an amount above the balance are refused.
   */
  function Pay(bill: Option<Bill>, amount: Option<int>, paidBy: Option<string>, now: Time): (r: Result<Bill>)
    ensures amount.None? || amount.value <= 0 ==> r == Err(400, "Invalid payment amount")
    ensures amount.Some? && amount.value > 0 && !Truthy(paidBy) ==>
      r == Err(400, "Payment method is required")
    ensures amount.Some? && amount.value > 0 && Truthy(paidBy) && bill.None? ==>
      r == Err(404, "Bill not found")
    ensures amount.Some? && amount.value > 0 && Truthy(paidBy) && bill.Some? && bill.value.status == Paid ==>
      r == Err(400, "Bill is already fully paid")
    ensures amount.Some? && amount.value > 0 && Truthy(paidBy) && bill.Some? && bill.value.status != Paid
            && amount.value > bill.value.balance ==>
      r == Err(400, ExceedsMessage(bill.value.balance))
    ensures r.Ok? <==>
      amount.Some? && amount.value > 0 && Truthy(paidBy) && bill.Some? && bill.value.status != Paid
      && amount.value <= bill.value.balance
    ensures r.Err? && r.code != 404 ==> r.code == 400
    ensures r.Ok? ==>
      && r.value.paidAmount == bill.value.paidAmount + amount.value
      && r.value.balance == r.value.totalAmount - r.value.paidAmount
      && (r.value.status == Paid <==> r.value.balance <= 0)
      && r.value.status != Unpaid
      && r.value.auditLogs == bill.value.auditLogs + [PaymentLog("payment_added", amount.value, paidBy.value, now)]
      && r.value.patient == bill.value.patient && r.value.items == bill.value.items
      && r.value.totalAmount == bill.value.totalAmount
  {
    if amount.None? || amount.value <= 0 then Err(400, "Invalid payment amount")
    else if !Truthy(paidBy) then Err(400, "Payment method is required")
    else if bill.None? then Err(404, "Bill not found")
    else if bill.value.status == Paid then Err(400, "Bill is already fully paid")
    else if amount.value > bill.value.balance then Err(400, ExceedsMessage(bill.value.balance))
    else Ok(Credit(bill.value, amount.value, paidBy.value, now))
  }

  /** Appending one log entry adds its amount to the logged total. */
  lemma PaymentsTotalAppend(logs: seq<PaymentLog>, e: PaymentLog)
    ensures PaymentsTotal(logs + [e]) == PaymentsTotal(logs) + e.amount
  {
    assert (logs + [e])[..|logs|] == logs;
  }

  /** An accepted payment keeps the ledger invariant of the bill. */
  lemma PayKeepsLedger(b: Bill, amount: Option<int>, paidBy: Option<string>, now: Time)
    requires LedgerConsistent(b)
    requires Pay(Some(b), amount, paidBy, now).Ok?
    ensures LedgerConsistent(Pay(Some(b), amount, paidBy, now).value)
  {
    PaymentsTotalAppend(b.auditLogs, PaymentLog("payment_added", amount.value, paidBy.value, now));
  }

  /** A log of positive payments has a positive total. */
  lemma {:induction false} PaymentsTotalPositive(logs: seq<PaymentLog>)
    requires logs != []
    requires forall i :: 0 <= i < |logs| ==> logs[i].amount > 0
    ensures PaymentsTotal(logs) > 0
  {
    var init := logs[..|logs| - 1];
    if init != [] {
      assert forall i :: 0 <= i < |init| ==> init[i] == logs[i];
      PaymentsTotalPositive(init);
    }
  }

  /**
   * On a bill that keeps its ledger and has taken a payment, something has
   * been paid and never more than the total: payments cannot overshoot.
   */
  lemma PaidWithinTotal(b: Bill)
    requires LedgerConsistent(b) && b.auditLogs != []
    ensures 0 < b.paidAmount <= b.totalAmount
  {
    PaymentsTotalPositive(b.auditLogs);
  }

  /** Paying exactly the outstanding balance settles a bill that still owes something. */
  lemma PayingBalanceSettles(b: Bill, paidBy: string, now: Time)
    requires LedgerConsistent(b) && b.status != Paid && b.balance > 0 && paidBy != ""
    ensures Pay(Some(b), Some(b.balance), Some(paidBy), now).Ok?
    ensures Pay(Some(b), Some(b.balance), Some(paidBy), now).value.status == Paid
    ensures Pay(Some(b), Some(b.balance), Some(paidBy), now).value.balance == 0
  {
  }

  /**
   * A new bill whose total is not positive can never take a payment, so it
   * stays "unpaid" for ever (the controller never marks it paid itself).
   */
  lemma NothingOwedStaysUnpaid(b: Bill, amount: Option<int>, paidBy: Option<string>, now: Time)
    requires LedgerConsistent(b) && b.status == Unpaid && b.totalAmount <= 0
    ensures Pay(Some(b), amount, paidBy, now).Err?
  {
  }

  /**
   * A run of payments against one bill, stopping at the first refused one
   * (the client sends them one request after another).
   */
  function PayEach(b: Bill, amounts: seq<int>, paidBy: string, now: Time): Result<Bill>
    decreases |amounts|
  {
    if amounts == [] then Ok(b)
    else
      match Pay(Some(b), Some(amounts[0]), Some(paidBy), now)
      case Err(code, message) => Err(code, message)
      case Ok(next) => PayEach(next, amounts[1..], paidBy, now)
  }

  function Sum(xs: seq<int>): int {
    if xs == [] then 0 else xs[0] + Sum(xs[1..])
  }

  /**
   * When every payment of a run is accepted, the paid amount has grown by
   * exactly their sum, one log entry was written per payment, and the
   * ledger still holds.
   */
  lemma {:induction false} PayEachAccumulates(b: Bill, amounts: seq<int>, paidBy: string, now: Time)
    requires LedgerConsistent(b)
    requires PayEach(b, amounts, paidBy, now).Ok?
    ensures PayEach(b, amounts, paidBy, now).value.paidAmount == b.paidAmount + Sum(amounts)
    ensures |PayEach(b, amounts, paidBy, now).value.auditLogs| == |b.auditLogs| + |amounts|
    ensures LedgerConsistent(PayEach(b, amounts, paidBy, now).value)
    decreases |amounts|
  {
    if amounts != [] {
      var next := Pay(Some(b), Some(amounts[0]), Some(paidBy), now);
      PayKeepsLedger(b, Some(amounts[0]), Some(paidBy), now);
      PayEachAccumulates(next.value, amounts[1..], paidBy, now);
    }
  }

  /**
   * `addPayment`: the bill is changed in place and saved when the payment
   * is accepted; on any refusal nothing is written.
   */
  method AddPayment(db: Db, billId: Id, amount: Option<int>, paidBy: Option<string>, now: Time)
    returns (r: Result<Bill>)
    requires db.Valid()
    modifies db`bills
    ensures db.Valid()
    ensures r == Pay(Lookup(old(db.bills), billId), amount, paidBy, now)
    ensures r.Ok? ==> db.bills == old(db.bills)[billId := r.value]
    ensures r.Err? ==> db.bills == old(db.bills)
  {
    if amount.None? || amount.value <= 0 {
      return Err(400, "Invalid payment amount");
    }
    if !Truthy(paidBy) {
      return Err(400, "Payment method is required");
    }
    if billId !in db.bills {
      return Err(404, "Bill not found");
    }
    var bill := db.bills[billId];
    if bill.status == Paid {
      return Err(400, "Bill is already fully paid");
    }
    if amount.value > bill.balance {
      return Err(400, ExceedsMessage(bill.balance));
    }
    PayKeepsLedger(bill, amount, paidBy, now);
    bill := bill.(paidAmount := bill.paidAmount + amount.value);
    bill := bill.(balance := bill.totalAmount - bill.paidAmount);
    bill := bill.(status := if bill.balance <= 0 then Paid else Partial);
    bill := bill.(auditLogs := bill.auditLogs + [PaymentLog("payment_added", amount.value, paidBy.value, now)]);
    db.bills := db.bills[billId := bill];
    r := Ok(bill);
  }

  // ---------------------------------------------------------------- Queries

  /** The filter `{ patient: patientId }`. */
  function OfPatient(patientId: Id): (Id, Bill) -> bool {
    (k: Id, b: Bill) => b.patient == patientId
  }

  /** The filter `{}`. */
  function Everything<T>(): (Id, T) -> bool {
    (k: Id, x: T) => true
  }

  /** `getAllBills`: every stored bill, once. */
  method GetAllBills(db: Db) returns (r: seq<(Id, Bill)>)
    ensures multiset(r) == multiset(Query.Selected(db.bills, Everything()))
    ensures forall p :: p in r <==> p.0 in db.bills && p.1 == db.bills[p.0]
  {
    r := Query.Collect(db.bills, Everything());
  }

  /**
   * `getPatientBills`: an id that is not a well-formed ObjectId (None) is
   * refused with 400; otherwise every bill of that patient is returned.
   */
  method GetPatientBills(db: Db, patientId: Option<Id>) returns (r: Result<seq<(Id, Bill)>>)
    ensures patientId.None? <==> r == Err(400, "Invalid patient ID")
    ensures r.Err? <==> patientId.None?
    ensures r.Ok? ==>
      multiset(r.value) == multiset(Query.Selected(db.bills, OfPatient(patientId.value)))
    ensures r.Ok? ==> forall p :: p in r.value ==> p.0 in db.bills && p.1.patient == patientId.value
  {
    if patientId.None? {
      return Err(400, "Invalid patient ID");
    }
    var bills := Query.Collect(db.bills, OfPatient(patientId.value));
    r := Ok(bills);
  }

  /** The filter `{ bill: billId }`. */
  function InvoiceOf(billId: Id): (Id, Invoice) -> bool {
    (k: Id, v: Invoice) => v.bill == billId
  }

  /** `getInvoiceByBill`: an invoice of the bill, or 404 when it has none. */
  method GetInvoiceByBill(db: Db, billId: Id) returns (r: Result<Invoice>)
    ensures r.Ok? ==> r.value.bill == billId && r.value in db.invoices.Values
    ensures r.Err? <==> !Query.Any(db.invoices, InvoiceOf(billId))
    ensures r.Err? ==> r == Err(404, "Invoice not found")
  {
    var found := Query.FindOne(db.invoices, InvoiceOf(billId));
    if found.None? {
      return Err(404, "Invoice not found");
    }
    r := Ok(db.invoices[found.value]);
  }

  /** The filter `{ billId: billId }`. */
  function LogOf(billId: Id): (Id, AuditLog) -> bool {
    (k: Id, l: AuditLog) => l.billId == billId
  }

  /** The sort key `timestamp`. */
  function LogTime(p: (Id, AuditLog)): real {
    p.1.timestamp as real
  }

  /**
   * `getAuditLogsByBill`: the bill's entries of the AuditLog collection,
   * newest first. That collection only ever holds bill creations; payments
   * are logged inside the bill itself.
   */
  method GetAuditLogsByBill(db: Db, billId: Id) returns (logs: seq<(Id, AuditLog)>)
    requires db.Valid()
    ensures multiset(logs) == multiset(Query.Selected(db.auditLogs, LogOf(billId)))
    ensures Sorting.SortedBy(logs, LogTime, true)
    ensures forall p :: p in logs ==> p.1.action == "CREATE_BILL" && p.1.billId == billId
  {
    var found := Query.Collect(db.auditLogs, LogOf(billId));
    logs := Sorting.Sort(found, LogTime, true);
    assert forall p :: p in logs ==> p in multiset(found);
  }
}
