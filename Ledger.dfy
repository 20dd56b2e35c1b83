/**
 * The rules of the invoice ledger: the display status derived from the base
 * status and the paid amount, the outcomes of the endpoints, and the guard
 * chains of the three ledger operations (apply a payment, reverse a payment,
 * refund), each as a function from the invoice the request loaded to the
 * invoice it writes back or the error it answers with.
 */
module Ledger {
  import opened Wrappers
  import opened Domain
  import opened Requests
  import Calculator

  /** The status shown to clients: stored Draft and Cancelled win; otherwise it follows the money. */
  function ComputeDisplayStatus(baseStatus: InvoiceStatus, total: real, paid: real): (r: InvoiceStatus)
    ensures baseStatus == Cancelled || baseStatus == Draft ==> r == baseStatus
    ensures baseStatus != Cancelled && baseStatus != Draft ==> r == Paid || r == PartiallyPaid || r == baseStatus
    ensures baseStatus == Issued ==>
      && (r == Paid <==> total <= paid)
      && (r == PartiallyPaid <==> 0.0 < paid < total)
      && (r == Issued <==> paid <= 0.0 && paid < total)
  {
    if baseStatus == Cancelled then Cancelled
    else if baseStatus == Draft then Draft
    else
      var outstanding := total - paid;
      if outstanding <= 0.0 then Paid
      else if paid > 0.0 then PartiallyPaid
      else baseStatus
  }

  /** The status expression the invoice list evaluates inline over the entries. */
  function ListStatus(status: InvoiceStatus, total: real, payments: seq<Payment>): (r: InvoiceStatus)
    ensures r == ComputeDisplayStatus(status, total, Sum(payments))
  {
    if status == Cancelled then Cancelled
    else if status == Draft then Draft
    else if total - Sum(payments) <= 0.0 then Paid
    else if Sum(payments) > 0.0 then PartiallyPaid
    else status
  }

  /** What a NotFound answer was about. */
  datatype Missing = InvoiceMissing | PaymentMissing

  /** Why a BadRequest answer was given. */
  datatype Rejection =
    | CustomerNotFound
    | NotDraft
    | HasPayments
    | NonPositiveAmount
    | InvoiceCancelled
    | InvoiceDraft
    | ExceedsOutstanding
    | DuplicateReference
    | NotAPositivePayment
    | AlreadyReversed
    | NothingPaid
    | ExceedsPaid

  /**
   * The answers an endpoint gives besides success. UniqueIndexViolation is
   * the store refusing a second invoice with the same number; the controller
   * does not catch it.
   */
  datatype Error = BadRequest(why: Rejection) | NotFound(what: Missing) | Conflict | UniqueIndexViolation

  /** The ambient values of one request: the acting user, the clock, and the fresh id of the new row. */
  datatype Capture = Capture(userId: Guid, now: Instant, newId: Guid)

  /** char.IsWhiteSpace: the Unicode space separators, line and paragraph separators, and the controls U+0009-U+000D and U+0085. */
  predicate IsWhiteSpace(ch: char)
  {
    || ch == ' ' || ('\t' <= ch <= '\r') || ch == '\U{85}' || ch == '\U{A0}' || ch == '\U{1680}'
    || ('\U{2000}' <= ch <= '\U{200A}') || ch == '\U{2028}' || ch == '\U{2029}'
    || ch == '\U{202F}' || ch == '\U{205F}' || ch == '\U{3000}'
  }

  /** string.IsNullOrWhiteSpace. */
  predicate Blank(s: Option<string>)
  {
    s.None? || forall i :: 0 <= i < |s.value| ==> IsWhiteSpace(s.value[i])
  }

  /** Some entry carries exactly this reference. */
  predicate HasReference(payments: seq<Payment>, reference: Option<string>)
  {
    exists i :: 0 <= i < |payments| && payments[i].reference == reference
  }

  /** Some entry is the reversal of the payment with this id. */
  predicate IsReversed(payments: seq<Payment>, id: Guid)
  {
    exists i :: 0 <= i < |payments| && payments[i].reversedPaymentId == Some(id)
  }

  /** The first entry with this id. */
  function FindPayment(payments: seq<Payment>, id: Guid): (r: Option<Payment>)
    ensures r.Some? ==> r.value in payments && r.value.id == id
    ensures r.Some? ==> exists k :: 0 <= k < |payments| && payments[k] == r.value && IdFirstAt(payments, id, k)
    ensures r.None? <==> forall i :: 0 <= i < |payments| ==> payments[i].id != id
  {
    if payments == [] then None
    else if payments[0].id == id then
      assert IdFirstAt(payments, id, 0);
      Some(payments[0])
    else
      var r := FindPayment(payments[1..], id);
      if r.Some? then
        var k :| 0 <= k < |payments[1..]| && payments[1..][k] == r.value && IdFirstAt(payments[1..], id, k);
        assert IdFirstAt(payments, id, k + 1);
        r
      else r
  }

  /** The entry at `k` has this id and no earlier entry has. */
  predicate IdFirstAt(payments: seq<Payment>, id: Guid, k: int)
    requires 0 <= k < |payments|
  {
    payments[k].id == id && forall j :: 0 <= j < k ==> payments[j].id != id
  }

  /** Entries may be added only once an invoice is issued and while it is not cancelled. */
  predicate OpenForEntries(status: InvoiceStatus)
  {
    status != Cancelled && status != Draft
  }

  function Max(a: real, b: real): real
  {
    if a < b then b else a
  }

  /**
   * What every stored invoice satisfies: its entries belong to it, its status
   * is one of the stored ones, a draft has no entries, and the net paid never
   * exceeds the total (or zero, for an invoice whose total is negative).
   */
  ghost predicate WellFormed(inv: Invoice)
  {
    && (forall i :: 0 <= i < |inv.payments| ==> inv.payments[i].invoiceId == inv.id)
    && (inv.status == Draft || inv.status == Issued || inv.status == Cancelled)
    && (inv.status == Draft ==> inv.payments == [])
    && inv.PaidAmount() <= Max(inv.total, 0.0)
  }

  /**
   * `seen` is a copy of the invoice `current` taken by an earlier read: the
   * fields fixed at creation agree, entries have only been appended since,
   * the version token has only moved forward, and while the token is the same
   * the status is the same (every write of the invoice row changes it), and
   * a cancelled invoice stays cancelled.
   */
  ghost predicate SnapshotOf(seen: Invoice, current: Invoice)
  {
    && seen.id == current.id
    && seen.customerId == current.customerId
    && seen.invoiceNumber == current.invoiceNumber
    && seen.issueDate == current.issueDate
    && seen.dueDate == current.dueDate
    && seen.subtotal == current.subtotal
    && seen.vatTotal == current.vatTotal
    && seen.total == current.total
    && seen.createdByUserId == current.createdByUserId
    && seen.createdAtUtc == current.createdAtUtc
    && seen.items == current.items
    && seen.payments <= current.payments
    && seen.rowVersion <= current.rowVersion
    && (seen.rowVersion == current.rowVersion ==> seen.status == current.status)
    && (seen.status == Cancelled ==> current.status == Cancelled)
  }

  function PaymentEntry(inv: Invoice, req: ApplyPaymentRequest, c: Capture): Payment
  {
    Payment(c.newId, inv.id, req.amount, c.now, c.now, req.paymentMethod, req.reference, c.userId, None, None)
  }

  function ReversalEntry(inv: Invoice, original: Payment, req: ReversePaymentRequest, c: Capture): Payment
  {
    Payment(c.newId, inv.id, -original.amount, c.now, c.now, req.paymentMethod, req.reference, c.userId,
            Some(original.id), req.reason)
  }

  function RefundEntry(inv: Invoice, req: RefundRequest, c: Capture): Payment
  {
    Payment(c.newId, inv.id, -req.amount, c.now, c.now, req.paymentMethod, req.reference, c.userId, None, req.reason)
  }

  /**
   * Applying a payment to the invoice the request found (None: no such
   * invoice). Success appends one positive entry and changes nothing else.
   */
  function PayStep(found: Option<Invoice>, req: ApplyPaymentRequest, c: Capture): (r: Result<Invoice, Error>)
    ensures r.Ok? <==>
      && 0.0 < req.amount
      && found.Some?
      && OpenForEntries(found.value.status)
      && req.amount <= found.value.Outstanding()
      && !(!Blank(req.reference) && HasReference(found.value.payments, req.reference))
    ensures r.Ok? ==> r.value == found.value.(payments := found.value.payments + [PaymentEntry(found.value, req, c)])
    ensures r.Ok? ==> r.value.PaidAmount() == found.value.PaidAmount() + req.amount <= r.value.total
    ensures Blank(req.reference) ==> r != Err(BadRequest(DuplicateReference))
    ensures 0.0 < req.amount && found.None? ==> r == Err(NotFound(InvoiceMissing))
    ensures r.Err? ==> r.error.BadRequest? || r.error == NotFound(InvoiceMissing)
    ensures r != Err(Conflict)
    ensures found.Some? && WellFormed(found.value) && r.Ok? ==> WellFormed(r.value)
  {
    if req.amount <= 0.0 then Err(BadRequest(NonPositiveAmount))
    else if found.None? then Err(NotFound(InvoiceMissing))
    else
      var inv := found.value;
      if inv.status == Cancelled then Err(BadRequest(InvoiceCancelled))
      else if inv.status == Draft then Err(BadRequest(InvoiceDraft))
      else
        var alreadyPaid := inv.PaidAmount();
        var outstanding := inv.total - alreadyPaid;
        if req.amount > outstanding then Err(BadRequest(ExceedsOutstanding))
        else if !Blank(req.reference) && HasReference(inv.payments, req.reference) then
          Err(BadRequest(DuplicateReference))
        else
          AppendEntry(inv, PaymentEntry(inv, req, c));
          Ok(inv.(payments := inv.payments + [PaymentEntry(inv, req, c)]))
  }

  /**
   * Reversing the payment `paymentId` of the invoice the request found.
   * Success appends one entry that negates that payment and points back at
   * it; the new net paid is not checked against zero.
   */
  function ReverseStep(found: Option<Invoice>, paymentId: Guid, req: ReversePaymentRequest, c: Capture): (r: Result<Invoice, Error>)
    ensures r.Ok? <==>
      && found.Some?
      && OpenForEntries(found.value.status)
      && FindPayment(found.value.payments, paymentId).Some?
      && 0.0 < FindPayment(found.value.payments, paymentId).value.amount
      && !IsReversed(found.value.payments, paymentId)
      && 0.0 < found.value.PaidAmount()
    ensures r.Ok? ==>
      var original := FindPayment(found.value.payments, paymentId).value;
      var reversal := ReversalEntry(found.value, original, req, c);
      && r.value == found.value.(payments := found.value.payments + [reversal])
      && reversal.amount == -original.amount && reversal.reversedPaymentId == Some(paymentId)
      && r.value.PaidAmount() == found.value.PaidAmount() - original.amount
    ensures found.None? ==> r == Err(NotFound(InvoiceMissing))
    ensures found.Some? && OpenForEntries(found.value.status) && FindPayment(found.value.payments, paymentId).None? ==>
      r == Err(NotFound(PaymentMissing))
    ensures r.Err? ==> r.error.BadRequest? || r.error.NotFound?
    ensures r != Err(Conflict)
    ensures found.Some? && WellFormed(found.value) && r.Ok? ==> WellFormed(r.value)
  {
    if found.None? then Err(NotFound(InvoiceMissing))
    else
      var inv := found.value;
      if inv.status == Cancelled then Err(BadRequest(InvoiceCancelled))
      else if inv.status == Draft then Err(BadRequest(InvoiceDraft))
      else
        var original := FindPayment(inv.payments, paymentId);
        if original.None? then Err(NotFound(PaymentMissing))
        else if original.value.amount <= 0.0 then Err(BadRequest(NotAPositivePayment))
        else if IsReversed(inv.payments, original.value.id) then Err(BadRequest(AlreadyReversed))
        else
          var paidSoFar := inv.PaidAmount();
          if paidSoFar <= 0.0 then Err(BadRequest(NothingPaid))
          else
            AppendEntry(inv, ReversalEntry(inv, original.value, req, c));
            Ok(inv.(payments := inv.payments + [ReversalEntry(inv, original.value, req, c)]))
  }

  /**
   * Refunding part or all of what was paid. Success appends one unlinked
   * negative entry; the net paid stays at or above zero.
   */
  function RefundStep(found: Option<Invoice>, req: RefundRequest, c: Capture): (r: Result<Invoice, Error>)
    ensures r.Ok? <==>
      && 0.0 < req.amount
      && found.Some?
      && OpenForEntries(found.value.status)
      && 0.0 < found.value.PaidAmount()
      && req.amount <= found.value.PaidAmount()
    ensures r.Ok? ==> r.value == found.value.(payments := found.value.payments + [RefundEntry(found.value, req, c)])
    ensures r.Ok? ==>
      && 0.0 <= r.value.PaidAmount() == found.value.PaidAmount() - req.amount
      && r.value.Outstanding() == r.value.total - r.value.PaidAmount()
    ensures 0.0 < req.amount && found.None? ==> r == Err(NotFound(InvoiceMissing))
    ensures r.Err? ==> r.error.BadRequest? || r.error == NotFound(InvoiceMissing)
    ensures r != Err(Conflict)
    ensures found.Some? && WellFormed(found.value) && r.Ok? ==> WellFormed(r.value)
  {
    if req.amount <= 0.0 then Err(BadRequest(NonPositiveAmount))
    else if found.None? then Err(NotFound(InvoiceMissing))
    else
      var inv := found.value;
      if inv.status == Cancelled then Err(BadRequest(InvoiceCancelled))
      else if inv.status == Draft then Err(BadRequest(InvoiceDraft))
      else
        var paid := inv.PaidAmount();
        if paid <= 0.0 then Err(BadRequest(NothingPaid))
        else if req.amount > paid then Err(BadRequest(ExceedsPaid))
        else
          AppendEntry(inv, RefundEntry(inv, req, c));
          Ok(inv.(payments := inv.payments + [RefundEntry(inv, req, c)]))
  }

  /** Appending entries never changes which entry is found first for an id already present. */
  lemma {:induction false} FindPaymentAppend(s: seq<Payment>, x: Payment, id: Guid)
    requires FindPayment(s, id).Some?
    ensures FindPayment(s + [x], id) == FindPayment(s, id)
  {
    if s[0].id != id {
      assert (s + [x])[1..] == s[1..] + [x];
      FindPaymentAppend(s[1..], x, id);
    }
  }

  /** A payment reversed once cannot be reversed again: the second attempt is a BadRequest. */
  lemma ReverseTwiceRejected(inv: Invoice, paymentId: Guid, req: ReversePaymentRequest, c: Capture,
                             req2: ReversePaymentRequest, c2: Capture)
    requires ReverseStep(Some(inv), paymentId, req, c).Ok?
    ensures ReverseStep(Some(ReverseStep(Some(inv), paymentId, req, c).value), paymentId, req2, c2)
         == Err(BadRequest(AlreadyReversed))
  {
    var after := ReverseStep(Some(inv), paymentId, req, c).value;
    var original := FindPayment(inv.payments, paymentId).value;
    FindPaymentAppend(inv.payments, ReversalEntry(inv, original, req, c), paymentId);
    assert after.payments[|inv.payments|].reversedPaymentId == Some(paymentId);
  }

  /** A non-blank reference accepted once is refused on the same invoice afterwards. */
  lemma DuplicateReferenceRejected(inv: Invoice, req: ApplyPaymentRequest, c: Capture,
                                   req2: ApplyPaymentRequest, c2: Capture)
    requires PayStep(Some(inv), req, c).Ok?
    requires !Blank(req.reference) && req2.reference == req.reference
    ensures PayStep(Some(PayStep(Some(inv), req, c).value), req2, c2).Err?
    ensures 0.0 < req2.amount <= PayStep(Some(inv), req, c).value.Outstanding() ==>
      PayStep(Some(PayStep(Some(inv), req, c).value), req2, c2) == Err(BadRequest(DuplicateReference))
  {
    var after := PayStep(Some(inv), req, c).value;
    assert after.payments[|inv.payments|].reference == req.reference;
    assert HasReference(after.payments, req2.reference);
  }

  /** Refunding everything paid on an issued invoice brings it back to Issued with nothing paid. */
  lemma RefundAllRestoresIssued(inv: Invoice, req: RefundRequest, c: Capture)
    requires WellFormed(inv) && inv.status == Issued
    requires 0.0 < inv.PaidAmount() && req.amount == inv.PaidAmount()
    ensures RefundStep(Some(inv), req, c).Ok?
    ensures var after := RefundStep(Some(inv), req, c).value;
      && after.PaidAmount() == 0.0
      && after.Outstanding() == inv.total
      && ComputeDisplayStatus(after.status, after.total, after.PaidAmount()) == Issued
  {
  }

  /** An issued invoice: 50.00 and 30.00 paid, then 60.00 refunded, so 20.00 is paid net. */
  function OverdrawExample(): Invoice
  {
    Invoice(1, 2, "INV-1", 0, 30, Issued, 100.0, 15.0, 115.0, 3, 0, [],
            [ Payment(10, 1, 50.0, 0, 0, "EFT", None, 3, None, None),
              Payment(11, 1, 30.0, 0, 0, "EFT", None, 3, None, None),
              Payment(12, 1, -60.0, 0, 0, "EFT", None, 3, None, None) ], 0)
  }

  /** The example invoice keeps the ledger invariant and has 20.00 paid net. */
  lemma OverdrawExampleBalance()
    ensures WellFormed(OverdrawExample()) && OverdrawExample().PaidAmount() == 20.0
  {
    var ps := OverdrawExample().payments;
    SumAppend([], ps[0]);
    SumAppend(ps[..1], ps[1]);
    SumAppend(ps[..2], ps[2]);
    assert [] + [ps[0]] == ps[..1] && ps[..1] + [ps[1]] == ps[..2] && ps[..2] + [ps[2]] == ps;
  }

  /** The net paid after a reversal can fall below zero: the guard only asks that something is paid. */
  lemma ReversalCanOverdraw(req: ReversePaymentRequest, c: Capture)
    ensures var r := ReverseStep(Some(OverdrawExample()), 10, req, c);
      r.Ok? && r.value.PaidAmount() == -30.0 && r.value.Outstanding() > r.value.total
  {
    var inv := OverdrawExample();
    var ps := inv.payments;
    OverdrawExampleBalance();
    assert FindPayment(ps, 10) == Some(ps[0]);
    assert !IsReversed(ps, 10);
    var r := ReverseStep(Some(inv), 10, req, c);
    assert r.Ok?;
    assert r.value.PaidAmount() == 20.0 - 50.0;
  }

  /**
   * On an issued invoice of 115.00: paying 50.00 leaves 65.00 outstanding and
   * shows PartiallyPaid; paying 65.00 more shows Paid; a further 0.01 exceeds
   * what is outstanding.
   */
  lemma SettlementScenario(inv: Invoice, c1: Capture, c2: Capture, c3: Capture)
    requires inv.status == Issued && inv.total == 115.0 && inv.payments == []
    ensures var r1 := PayStep(Some(inv), ApplyPaymentRequest(50.0, "EFT", None), c1);
      && r1.Ok? && r1.value.PaidAmount() == 50.0 && r1.value.Outstanding() == 65.0
      && ComputeDisplayStatus(Issued, 115.0, 50.0) == PartiallyPaid
      && var r2 := PayStep(Some(r1.value), ApplyPaymentRequest(65.0, "EFT", None), c2);
      && r2.Ok? && r2.value.PaidAmount() == 115.0 && r2.value.Outstanding() == 0.0
      && ComputeDisplayStatus(Issued, 115.0, 115.0) == Paid
      && PayStep(Some(r2.value), ApplyPaymentRequest(0.01, "EFT", None), c3) == Err(BadRequest(ExceedsOutstanding))
  {
  }

  /** The (qty, unitPrice, vatRate) lines the calculator is given for the requested items. */
  function LinesOf(items: seq<CreateInvoiceItem>): (lines: seq<Calculator.Line>)
    ensures |lines| == |items|
    ensures forall i :: 0 <= i < |items| ==>
      lines[i] == Calculator.Line(items[i].qty, items[i].unitPrice, items[i].vatRate)
  {
    seq(|items|, i requires 0 <= i < |items| => Calculator.Line(items[i].qty, items[i].unitPrice, items[i].vatRate))
  }

  function ItemOf(invoiceId: Guid, item: CreateInvoiceItem, id: Guid): InvoiceItem
  {
    var lineTotal := item.qty as real * item.unitPrice;
    var vatAmount := lineTotal * item.vatRate;
    InvoiceItem(id, invoiceId, item.description, item.qty, item.unitPrice, item.vatRate, lineTotal, vatAmount)
  }

  /** The stored items of a new invoice, one per requested item, with their line and VAT amounts. */
  function ItemsOf(invoiceId: Guid, items: seq<CreateInvoiceItem>, ids: seq<Guid>): (r: seq<InvoiceItem>)
    requires |ids| == |items|
    ensures |r| == |items|
    ensures forall i :: 0 <= i < |items| ==> r[i] == ItemOf(invoiceId, items[i], ids[i])
  {
    seq(|items|, i requires 0 <= i < |items| => ItemOf(invoiceId, items[i], ids[i]))
  }

  /** The sum of the line totals plus VAT amounts of stored items. */
  function ItemsGrandTotal(items: seq<InvoiceItem>): real
  {
    if items == [] then 0.0
    else ItemsGrandTotal(items[..|items| - 1]) + items[|items| - 1].lineTotal + items[|items| - 1].vatAmount
  }

  /** The stored items of a new invoice add up to the total the calculator gives for it. */
  lemma {:induction false} ItemsAddUpToTotal(invoiceId: Guid, items: seq<CreateInvoiceItem>, ids: seq<Guid>)
    requires |ids| == |items|
    ensures ItemsGrandTotal(ItemsOf(invoiceId, items, ids))
         == Calculator.Subtotal(LinesOf(items)) + Calculator.VatTotal(LinesOf(items))
    decreases |items|
  {
    if items != [] {
      var n := |items| - 1;
      assert ItemsOf(invoiceId, items, ids)[..n] == ItemsOf(invoiceId, items[..n], ids[..n]);
      assert LinesOf(items)[..n] == LinesOf(items[..n]);
      ItemsAddUpToTotal(invoiceId, items[..n], ids[..n]);
    }
  }
}
