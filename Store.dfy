/**
 * The invoice endpoints over an in-memory store: the customers and the
 * invoices (each with its items and its append-only payment entries).
 * Create, Issue and Cancel write the invoice row; ApplyPayment,
 * ReversePayment and Refund only insert an entry and leave the row, and so
 * its version token, alone. Get and List recompute every derived amount from
 * the live entries.
 */
module Store {
  import opened Wrappers
  import opened Domain
  import opened Requests
  import opened Ledger
  import Calculator

  datatype CreatedInvoice = CreatedInvoice(
    id: Guid, invoiceNumber: string, status: InvoiceStatus, total: real, issueDate: Date, dueDate: Date)

  datatype IssueReceipt = IssueReceipt(
    id: Guid, invoiceNumber: string, status: InvoiceStatus, total: real, paid: real, outstanding: real)

  datatype CancelReceipt = CancelReceipt(id: Guid, invoiceNumber: string, status: InvoiceStatus)

  datatype PaymentReceipt = PaymentReceipt(
    id: Guid, invoiceNumber: string, status: InvoiceStatus, total: real, paid: real, outstanding: real,
    paymentId: Guid)

  datatype ReversalReceipt = ReversalReceipt(
    invoiceId: Guid, originalPaymentId: Guid, reversalPaymentId: Guid, status: InvoiceStatus,
    total: real, paid: real, outstanding: real)

  datatype RefundReceipt = RefundReceipt(
    invoiceId: Guid, refundPaymentId: Guid, status: InvoiceStatus, total: real, paid: real, outstanding: real)

  datatype CustomerRef = CustomerRef(id: Guid, name: string, email: Option<string>)

  datatype InvoiceDetail = InvoiceDetail(
    id: Guid, invoiceNumber: string, status: InvoiceStatus, issueDate: Date, dueDate: Date,
    subtotal: real, vatTotal: real, total: real, paid: real, outstanding: real,
    customer: Option<CustomerRef>, items: seq<InvoiceItem>, payments: seq<Payment>)

  datatype InvoiceSummary = InvoiceSummary(
    id: Guid, invoiceNumber: string, customerName: string, status: InvoiceStatus,
    total: real, paid: real, outstanding: real, issueDate: Date, dueDate: Date)

  /** Some stored invoice already has this number. */
  predicate NumberTaken(invoices: map<Guid, Invoice>, number: string)
  {
    exists id | id in invoices :: invoices[id].invoiceNumber == number
  }

  /** The unique index on invoice numbers. */
  ghost predicate NumbersUnique(invoices: map<Guid, Invoice>)
  {
    forall a, b | a in invoices && b in invoices && a != b :: invoices[a].invoiceNumber != invoices[b].invoiceNumber
  }

  /** No invoice disappears, and each stored invoice is a later version of what it was. */
  ghost predicate Evolves(before: map<Guid, Invoice>, after: map<Guid, Invoice>)
  {
    forall id | id in before :: id in after && SnapshotOf(before[id], after[id])
  }

  /**
   * Every stored invoice is filed under its own id, is well formed and
   * belongs to a known customer, and invoice numbers are unique.
   */
  ghost predicate StoreInvariant(customers: map<Guid, Customer>, invoices: map<Guid, Invoice>)
  {
    && (forall id | id in invoices ::
          && invoices[id].id == id
          && WellFormed(invoices[id])
          && invoices[id].customerId in customers)
    && NumbersUnique(invoices)
  }

  /** Writing back a later, well-formed version of a stored invoice keeps the invariant. */
  lemma ReplaceInvoice(customers: map<Guid, Customer>, invoices: map<Guid, Invoice>, id: Guid, after: Invoice)
    requires StoreInvariant(customers, invoices)
    requires id in invoices && SnapshotOf(invoices[id], after) && WellFormed(after)
    ensures StoreInvariant(customers, invoices[id := after])
    ensures Evolves(invoices, invoices[id := after])
  {
    var updated := invoices[id := after];
    forall a, b | a in updated && b in updated && a != b
      ensures updated[a].invoiceNumber != updated[b].invoiceNumber
    {
      assert updated[a].invoiceNumber == invoices[a].invoiceNumber;
      assert updated[b].invoiceNumber == invoices[b].invoiceNumber;
    }
  }

  class InvoiceStore {
    var customers: map<Guid, Customer>
    var invoices: map<Guid, Invoice>

    ghost predicate Valid()
      reads this
    {
      StoreInvariant(customers, invoices)
    }

    constructor (customers: map<Guid, Customer>)
      ensures Valid()
      ensures this.customers == customers && invoices == map[]
    {
      this.customers := customers;
      invoices := map[];
    }

    /** Loads an invoice with its entries; None when there is none with this id. */
    function Find(id: Guid): Option<Invoice>
      reads this
    {
      if id in invoices then Some(invoices[id]) else None
    }

    /**
     * Creates a Draft invoice for a known customer, with the totals the
     * calculator gives for its items. The number and the new ids are given.
     */
    method Create(req: CreateInvoiceRequest, invoiceNumber: string, itemIds: seq<Guid>, c: Capture)
      returns (r: Result<CreatedInvoice, Error>)
      requires Valid()
      requires c.newId !in invoices
      requires |itemIds| == |req.items|
      modifies this
      ensures Valid() && customers == old(customers) && Evolves(old(invoices), invoices)
      ensures r.Ok? <==> req.customerId in customers && !NumberTaken(old(invoices), invoiceNumber)
      ensures req.customerId !in customers ==> r == Err(BadRequest(CustomerNotFound))
      ensures r.Err? ==> invoices == old(invoices)
      ensures r.Ok? ==> c.newId in invoices
      ensures r.Ok? ==>
        var inv := invoices[c.newId];
        && invoices == old(invoices)[c.newId := inv]
        && inv.status == Draft && inv.payments == [] && inv.PaidAmount() == 0.0
        && inv.customerId == req.customerId && inv.invoiceNumber == invoiceNumber
        && inv.issueDate == req.issueDate && inv.dueDate == req.dueDate
        && inv.createdByUserId == c.userId && inv.createdAtUtc == c.now
        && inv.subtotal == Calculator.Subtotal(LinesOf(req.items))
        && inv.vatTotal == Calculator.VatTotal(LinesOf(req.items))
        && inv.total == inv.subtotal + inv.vatTotal
        && inv.items == ItemsOf(c.newId, req.items, itemIds)
        && r.value == CreatedInvoice(c.newId, invoiceNumber, Draft, inv.total, req.issueDate, req.dueDate)
    {
      if req.customerId !in customers {
        return Err(BadRequest(CustomerNotFound));
      }
      var totals := Calculator.Calculate(LinesOf(req.items));
      var invoice := NewInvoice(c.newId, req.customerId, invoiceNumber, req.issueDate, req.dueDate,
                                totals.subtotal, totals.vatTotal, totals.total, c.userId, c.now)
                     .(items := ItemsOf(c.newId, req.items, itemIds));
      if NumberTaken(invoices, invoiceNumber) {
        return Err(UniqueIndexViolation);
      }
      invoices := invoices[c.newId := invoice];
      r := Ok(CreatedInvoice(invoice.id, invoice.invoiceNumber, invoice.status, invoice.total,
                             invoice.issueDate, invoice.dueDate));
    }

    /**
     * Issues a Draft invoice. `seen` is what the request loaded; the write
     * succeeds only if the stored version token is still the one it read.
     */
    method Issue(id: Guid, seen: Option<Invoice>) returns (r: Result<IssueReceipt, Error>)
      requires Valid()
      requires seen.Some? ==> id in invoices && SnapshotOf(seen.value, invoices[id])
      modifies this
      ensures Valid() && customers == old(customers) && Evolves(old(invoices), invoices)
      ensures r.Ok? <==> seen.Some? && seen.value.status == Draft && seen.value.rowVersion == old(invoices[id].rowVersion)
      ensures seen.None? ==> r == Err(NotFound(InvoiceMissing))
      ensures seen.Some? && seen.value.status != Draft ==> r == Err(BadRequest(NotDraft))
      ensures seen.Some? && seen.value.status == Draft && seen.value.rowVersion != old(invoices[id].rowVersion) ==>
        r == Err(Conflict)
      ensures r.Err? ==> invoices == old(invoices)
      ensures r.Ok? ==>
        var before := old(invoices[id]);
        && before.status == Draft
        && invoices == old(invoices)[id := before.(status := Issued, rowVersion := before.rowVersion + 1)]
        && r.value == IssueReceipt(id, before.invoiceNumber, Issued, before.total, 0.0, before.total)
      ensures seen == old(Find(id)) ==> r != Err(Conflict)
    {
      if seen.None? {
        return Err(NotFound(InvoiceMissing));
      }
      var inv := seen.value;
      if inv.status != Draft {
        return Err(BadRequest(NotDraft));
      }
      var stored := invoices[id];
      if stored.rowVersion != inv.rowVersion {
        return Err(Conflict);
      }
      ReplaceInvoice(customers, invoices, id, stored.(status := Issued, rowVersion := stored.rowVersion + 1));
      invoices := invoices[id := stored.(status := Issued, rowVersion := stored.rowVersion + 1)];
      var paid := inv.PaidAmount();
      var outstanding := inv.total - paid;
      r := Ok(IssueReceipt(inv.id, inv.invoiceNumber, Issued, inv.total, paid, outstanding));
    }

    /**
     * Cancels an invoice on which nothing is paid net, whatever its status.
     * The paid amount is taken from what the request loaded. Setting the
     * status of an invoice loaded as Cancelled changes no property, so the
     * save writes nothing: no version check, and the token stays.
     */
    method Cancel(id: Guid, seen: Option<Invoice>) returns (r: Result<CancelReceipt, Error>)
      requires Valid()
      requires seen.Some? ==> id in invoices && SnapshotOf(seen.value, invoices[id])
      modifies this
      ensures Valid() && customers == old(customers) && Evolves(old(invoices), invoices)
      ensures r.Ok? <==>
        && seen.Some? && seen.value.PaidAmount() <= 0.0
        && (seen.value.status == Cancelled || seen.value.rowVersion == old(invoices[id].rowVersion))
      ensures seen.None? ==> r == Err(NotFound(InvoiceMissing))
      ensures seen.Some? && seen.value.PaidAmount() > 0.0 ==> r == Err(BadRequest(HasPayments))
      ensures seen.Some? && seen.value.PaidAmount() <= 0.0 && seen.value.status != Cancelled
              && seen.value.rowVersion != old(invoices[id].rowVersion) ==>
        r == Err(Conflict)
      ensures r.Err? ==> invoices == old(invoices)
      ensures r.Ok? ==> r.value == CancelReceipt(id, old(invoices[id]).invoiceNumber, Cancelled)
      ensures r.Ok? && seen.value.status == Cancelled ==> invoices == old(invoices)
      ensures r.Ok? && seen.value.status != Cancelled ==>
        var before := old(invoices[id]);
        invoices == old(invoices)[id := before.(status := Cancelled, rowVersion := before.rowVersion + 1)]
      ensures r.Ok? ==> invoices[id].status == Cancelled
      ensures seen == old(Find(id)) ==> r != Err(Conflict)
    {
      if seen.None? {
        return Err(NotFound(InvoiceMissing));
      }
      var inv := seen.value;
      var paid := inv.PaidAmount();
      if paid > 0.0 {
        return Err(BadRequest(HasPayments));
      }
      if inv.status == Cancelled {
        return Ok(CancelReceipt(inv.id, inv.invoiceNumber, Cancelled));
      }
      var stored := invoices[id];
      if stored.rowVersion != inv.rowVersion {
        return Err(Conflict);
      }
      ReplaceInvoice(customers, invoices, id, stored.(status := Cancelled, rowVersion := stored.rowVersion + 1));
      invoices := invoices[id := stored.(status := Cancelled, rowVersion := stored.rowVersion + 1)];
      r := Ok(CancelReceipt(inv.id, inv.invoiceNumber, Cancelled));
    }

    /**
     * Inserts one entry into the payments of invoice `id` and saves; the
     * invoice row, and so its status and version token, stay as they are.
     */
    method InsertEntry(id: Guid, entry: Payment)
      requires Valid() && id in invoices
      requires WellFormed(invoices[id].(payments := invoices[id].payments + [entry]))
      modifies this
      ensures Valid() && customers == old(customers) && Evolves(old(invoices), invoices)
      ensures invoices == old(invoices)[id := old(invoices[id]).(payments := old(invoices[id]).payments + [entry])]
      ensures var before := old(invoices[id]);
        && Get(id).Ok?
        && Get(id).value.paid == before.PaidAmount() + entry.amount
        && Get(id).value.outstanding == before.total - Get(id).value.paid
        && Get(id).value.status == ComputeDisplayStatus(before.status, before.total, Get(id).value.paid)
    {
      var before := invoices[id];
      var after := before.(payments := before.payments + [entry]);
      AppendEntry(before, entry);
      ReplaceInvoice(customers, invoices, id, after);
      invoices := invoices[id := after];
    }

    /**
     * Captures a payment. On success one entry is inserted; the invoice row
     * and its version token are untouched, and the amounts returned are what
     * Get reports afterwards.
     */
    method ApplyPayment(id: Guid, req: ApplyPaymentRequest, c: Capture) returns (r: Result<PaymentReceipt, Error>)
      requires Valid()
      modifies this
      ensures Valid() && customers == old(customers) && Evolves(old(invoices), invoices)
      ensures var step := PayStep(old(Find(id)), req, c);
        && (step.Err? ==> r == Err(step.error) && invoices == old(invoices))
        && (step.Ok? ==> r.Ok? && invoices == old(invoices)[id := step.value])
      ensures r.Ok? ==>
        && r.value.id == id && r.value.paymentId == c.newId
        && invoices[id].rowVersion == old(invoices[id].rowVersion)
        && invoices[id].status == old(invoices[id].status)
        && Get(id).Ok?
        && r.value.status == Get(id).value.status
        && r.value.paid == Get(id).value.paid <= r.value.total
        && r.value.outstanding == Get(id).value.outstanding
    {
      if req.amount <= 0.0 {
        return Err(BadRequest(NonPositiveAmount));
      }
      var found := Find(id);
      if found.None? {
        return Err(NotFound(InvoiceMissing));
      }
      var inv := found.value;
      if inv.status == Cancelled {
        return Err(BadRequest(InvoiceCancelled));
      }
      if inv.status == Draft {
        return Err(BadRequest(InvoiceDraft));
      }
      var alreadyPaid := inv.PaidAmount();
      var outstanding := inv.total - alreadyPaid;
      if req.amount > outstanding {
        return Err(BadRequest(ExceedsOutstanding));
      }
      if !Blank(req.reference) && HasReference(inv.payments, req.reference) {
        return Err(BadRequest(DuplicateReference));
      }
      var payment := PaymentEntry(inv, req, c);
      InsertEntry(id, payment);
      var newPaid := alreadyPaid + req.amount;
      var newOutstanding := inv.total - newPaid;
      var displayStatus := ComputeDisplayStatus(inv.status, inv.total, newPaid);
      r := Ok(PaymentReceipt(inv.id, inv.invoiceNumber, displayStatus, inv.total, newPaid, newOutstanding, payment.id));
    }

    /**
     * Reverses one positive payment in full by inserting its negation,
     * linked to it. The version token is untouched.
     */
    method ReversePayment(invoiceId: Guid, paymentId: Guid, req: ReversePaymentRequest, c: Capture)
      returns (r: Result<ReversalReceipt, Error>)
      requires Valid()
      modifies this
      ensures Valid() && customers == old(customers) && Evolves(old(invoices), invoices)
      ensures var step := ReverseStep(old(Find(invoiceId)), paymentId, req, c);
        && (step.Err? ==> r == Err(step.error) && invoices == old(invoices))
        && (step.Ok? ==> r.Ok? && invoices == old(invoices)[invoiceId := step.value])
      ensures r.Ok? ==>
        && r.value.invoiceId == invoiceId && r.value.originalPaymentId == paymentId
        && r.value.reversalPaymentId == c.newId
        && invoices[invoiceId].rowVersion == old(invoices[invoiceId].rowVersion)
        && Get(invoiceId).Ok?
        && r.value.status == Get(invoiceId).value.status
        && r.value.paid == Get(invoiceId).value.paid
        && r.value.outstanding == Get(invoiceId).value.outstanding
    {
      var found := Find(invoiceId);
      if found.None? {
        return Err(NotFound(InvoiceMissing));
      }
      var inv := found.value;
      if inv.status == Cancelled {
        return Err(BadRequest(InvoiceCancelled));
      }
      if inv.status == Draft {
        return Err(BadRequest(InvoiceDraft));
      }
      var original := FindPayment(inv.payments, paymentId);
      if original.None? {
        return Err(NotFound(PaymentMissing));
      }
      if original.value.amount <= 0.0 {
        return Err(BadRequest(NotAPositivePayment));
      }
      if IsReversed(inv.payments, original.value.id) {
        return Err(BadRequest(AlreadyReversed));
      }
      var paidSoFar := inv.PaidAmount();
      if paidSoFar <= 0.0 {
        return Err(BadRequest(NothingPaid));
      }
      var reversal := ReversalEntry(inv, original.value, req, c);
      InsertEntry(invoiceId, reversal);
      var newPaid := paidSoFar + reversal.amount;
      var outstanding := inv.total - newPaid;
      var displayStatus := ComputeDisplayStatus(inv.status, inv.total, newPaid);
      r := Ok(ReversalReceipt(inv.id, original.value.id, reversal.id, displayStatus, inv.total, newPaid, outstanding));
    }

    /** Refunds up to what is paid net by inserting one unlinked negative entry. */
    method Refund(invoiceId: Guid, req: RefundRequest, c: Capture) returns (r: Result<RefundReceipt, Error>)
      requires Valid()
      modifies this
      ensures Valid() && customers == old(customers) && Evolves(old(invoices), invoices)
      ensures var step := RefundStep(old(Find(invoiceId)), req, c);
        && (step.Err? ==> r == Err(step.error) && invoices == old(invoices))
        && (step.Ok? ==> r.Ok? && invoices == old(invoices)[invoiceId := step.value])
      ensures r.Ok? ==>
        && r.value.invoiceId == invoiceId && r.value.refundPaymentId == c.newId
        && invoices[invoiceId].rowVersion == old(invoices[invoiceId].rowVersion)
        && Get(invoiceId).Ok?
        && r.value.status == Get(invoiceId).value.status
        && 0.0 <= r.value.paid == Get(invoiceId).value.paid
        && r.value.outstanding == Get(invoiceId).value.outstanding
    {
      if req.amount <= 0.0 {
        return Err(BadRequest(NonPositiveAmount));
      }
      var found := Find(invoiceId);
      if found.None? {
        return Err(NotFound(InvoiceMissing));
      }
      var inv := found.value;
      if inv.status == Cancelled {
        return Err(BadRequest(InvoiceCancelled));
      }
      if inv.status == Draft {
        return Err(BadRequest(InvoiceDraft));
      }
      var paid := inv.PaidAmount();
      if paid <= 0.0 {
        return Err(BadRequest(NothingPaid));
      }
      if req.amount > paid {
        return Err(BadRequest(ExceedsPaid));
      }
      var refund := RefundEntry(inv, req, c);
      InsertEntry(invoiceId, refund);
      var newPaid := paid - req.amount;
      var outstanding := inv.total - newPaid;
      var displayStatus := ComputeDisplayStatus(inv.status, inv.total, newPaid);
      r := Ok(RefundReceipt(inv.id, refund.id, displayStatus, inv.total, newPaid, outstanding));
    }

    /** One invoice with every derived amount recomputed from its entries. */
    function Get(id: Guid): (r: Result<InvoiceDetail, Error>)
      reads this
      ensures r.Ok? <==> id in invoices
      ensures r.Err? ==> r.error == NotFound(InvoiceMissing)
      ensures r.Ok? ==>
        && r.value.paid == Sum(invoices[id].payments)
        && r.value.outstanding == r.value.total - r.value.paid
        && r.value.total == invoices[id].total
        && r.value.status == ComputeDisplayStatus(invoices[id].status, r.value.total, r.value.paid)
        && multiset(r.value.payments) == multiset(invoices[id].payments)
    {
      if id !in invoices then Err(NotFound(InvoiceMissing))
      else
        var inv := invoices[id];
        var paid := inv.PaidAmount();
        var outstanding := inv.total - paid;
        var displayStatus := ComputeDisplayStatus(inv.status, inv.total, paid);
        var customer := if inv.customerId in customers
                        then Some(CustomerRef(inv.customerId, customers[inv.customerId].name,
                                              customers[inv.customerId].email))
                        else None;
        Ok(InvoiceDetail(inv.id, inv.invoiceNumber, displayStatus, inv.issueDate, inv.dueDate,
                         inv.subtotal, inv.vatTotal, inv.total, paid, outstanding, customer,
                         inv.items, inv.payments))
    }

    /** Every invoice, keyed by id, with the status the list computes inline. */
    function List(): (r: map<Guid, InvoiceSummary>)
      requires Valid()
      reads this
      ensures r.Keys == invoices.Keys
      ensures forall id | id in r ::
        && Get(id).Ok?
        && r[id].status == Get(id).value.status
        && r[id].paid == Get(id).value.paid
        && r[id].outstanding == Get(id).value.outstanding
        && r[id].customerName == customers[invoices[id].customerId].name
    {
      map id | id in invoices ::
        var inv := invoices[id];
        InvoiceSummary(inv.id, inv.invoiceNumber, customers[inv.customerId].name,
                       ListStatus(inv.status, inv.total, inv.payments),
                       inv.total, Sum(inv.payments), inv.total - Sum(inv.payments),
                       inv.issueDate, inv.dueDate)
    }
  }

  /** Two requests load the same Draft invoice and both issue it: the first wins, the second gets Conflict. */
  method ConcurrentIssue(store: InvoiceStore, id: Guid)
    returns (first: Result<IssueReceipt, Error>, second: Result<IssueReceipt, Error>)
    requires store.Valid() && id in store.invoices && store.invoices[id].status == Draft
    modifies store
    ensures first.Ok? && second == Err(Conflict)
    ensures store.Valid() && id in store.invoices && store.invoices[id].status == Issued
  {
    var a := store.Find(id);
    var b := store.Find(id);
    first := store.Issue(id, a);
    second := store.Issue(id, b);
  }

  /** Two requests load the same Cancelled invoice and both cancel it: both succeed and nothing is written. */
  method CancelTwice(store: InvoiceStore, id: Guid)
    returns (first: Result<CancelReceipt, Error>, second: Result<CancelReceipt, Error>)
    requires store.Valid() && id in store.invoices
    requires store.invoices[id].status == Cancelled && store.invoices[id].PaidAmount() <= 0.0
    modifies store
    ensures first.Ok? && second.Ok?
    ensures store.invoices == old(store.invoices)
  {
    var a := store.Find(id);
    var b := store.Find(id);
    first := store.Cancel(id, a);
    second := store.Cancel(id, b);
  }

  /**
   * A cancel that loaded the invoice before a payment was inserted still
   * succeeds, because inserting a payment leaves the version token alone:
   * the result is a Cancelled invoice with money on it.
   */
  method CancelRacesPayment(store: InvoiceStore, id: Guid, req: ApplyPaymentRequest, c: Capture)
    returns (payment: Result<PaymentReceipt, Error>, cancel: Result<CancelReceipt, Error>)
    requires store.Valid() && id in store.invoices
    requires store.invoices[id].status == Issued && store.invoices[id].payments == []
    requires 0.0 < req.amount <= store.invoices[id].total && Blank(req.reference)
    modifies store
    ensures payment.Ok? && cancel.Ok?
    ensures id in store.invoices && store.invoices[id].status == Cancelled && store.invoices[id].PaidAmount() == req.amount > 0.0
  {
    var snapshot := store.Find(id);
    payment := store.ApplyPayment(id, req, c);
    cancel := store.Cancel(id, snapshot);
  }
}
