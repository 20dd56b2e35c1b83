/**
 * The domain entities of the invoicing ledger (invoices, their items, their
 * payment entries, customers) as plain values, and the derived amounts of an
 * invoice: what has been paid is always a fold over its signed entries.
 */
module Domain {
  import opened Wrappers

  /** Identifiers (GUIDs) are opaque; only equality matters. */
  type Guid = nat
  /** A calendar date (DateOnly), as a day number. */
  type Date = int
  /** A UTC instant (DateTime), as a tick count. */
  type Instant = int

  /** Draft, Issued and Cancelled are stored; the others are only ever displayed. */
  datatype InvoiceStatus = Draft | Issued | PartiallyPaid | Paid | Overdue | Cancelled

  datatype Customer = Customer(
    id: Guid,
    name: string,
    email: Option<string>,
    phone: Option<string>,
    address: Option<string>,
    createdAtUtc: Instant)

  datatype InvoiceItem = InvoiceItem(
    id: Guid,
    invoiceId: Guid,
    description: string,
    qty: int,
    unitPrice: real,
    vatRate: real,
    lineTotal: real,
    vatAmount: real)

  /**
   * One ledger entry against an invoice. A positive amount is a payment, a
   * negative one a refund or a reversal; a reversal names the payment it undoes.
   */
  datatype Payment = Payment(
    id: Guid,
    invoiceId: Guid,
    amount: real,
    paidAtUtc: Instant,
    capturedAtUtc: Instant,
    paymentMethod: string,
    reference: Option<string>,
    capturedByUserId: Guid,
    reversedPaymentId: Option<Guid>,
    reason: Option<string>)

  /**
   * An invoice together with its items and its payment entries, as the
   * controller loads it. `rowVersion` is the optimistic concurrency token
   * that the store changes on every write of the invoice row.
   */
  datatype Invoice = Invoice(
    id: Guid,
    customerId: Guid,
    invoiceNumber: string,
    issueDate: Date,
    dueDate: Date,
    status: InvoiceStatus,
    subtotal: real,
    vatTotal: real,
    total: real,
    createdByUserId: Guid,
    createdAtUtc: Instant,
    items: seq<InvoiceItem>,
    payments: seq<Payment>,
    rowVersion: nat)
  {
    /** The net amount paid: the sum of every signed entry. */
    function PaidAmount(): real
    {
      Sum(payments)
    }

    /** What is still owed. */
    function Outstanding(): real
    {
      total - PaidAmount()
    }
  }

  /** The sum of the signed amounts of a sequence of entries. */
  function Sum(entries: seq<Payment>): real
  {
    if entries == [] then 0.0
    else Sum(entries[..|entries| - 1]) + entries[|entries| - 1].amount
  }

  /**
   * A new invoice: the fields the object initializer sets, and the defaults
   * for the rest (status Draft, no items, no payments).
   */
  function NewInvoice(
    id: Guid, customerId: Guid, invoiceNumber: string, issueDate: Date, dueDate: Date,
    subtotal: real, vatTotal: real, total: real, createdByUserId: Guid, createdAtUtc: Instant): (inv: Invoice)
    ensures inv.id == id && inv.customerId == customerId && inv.invoiceNumber == invoiceNumber
    ensures inv.status == Draft && inv.items == [] && inv.payments == []
    ensures inv.total == total && inv.PaidAmount() == 0.0 && inv.Outstanding() == total
  {
    Invoice(id, customerId, invoiceNumber, issueDate, dueDate, Draft,
            subtotal, vatTotal, total, createdByUserId, createdAtUtc, [], [], 0)
  }

  /** Appending an entry moves the paid and outstanding amounts by exactly its amount. */
  lemma {:induction false} AppendEntry(inv: Invoice, p: Payment)
    ensures var after := inv.(payments := inv.payments + [p]);
      && after.total == inv.total
      && after.PaidAmount() == inv.PaidAmount() + p.amount
      && after.Outstanding() == inv.Outstanding() - p.amount
  {
    SumAppend(inv.payments, p);
  }

  lemma {:induction false} SumAppend(s: seq<Payment>, p: Payment)
    ensures Sum(s + [p]) == Sum(s) + p.amount
  {
    assert (s + [p])[..|s|] == s;
  }

  /** The sum over a concatenation is the sum of the sums. */
  lemma {:induction false} SumConcat(a: seq<Payment>, b: seq<Payment>)
    ensures Sum(a + b) == Sum(a) + Sum(b)
    decreases |b|
  {
    if b == [] {
      assert a + b == a;
    } else {
      var last := b[|b| - 1];
      var init := b[..|b| - 1];
      assert a + b == (a + init) + [last];
      SumAppend(a + init, last);
      SumConcat(a, init);
    }
  }

  /** The paid amount does not depend on the order of the entries. */
  lemma {:induction false} SumPermutation(a: seq<Payment>, b: seq<Payment>)
    requires multiset(a) == multiset(b)
    ensures Sum(a) == Sum(b)
    decreases |a|
  {
    if a == [] {
      assert |b| == |multiset(b)| == 0;
    } else {
      var last := a[|a| - 1];
      var init := a[..|a| - 1];
      assert a == init + [last];
      assert last in multiset(b);
      var j :| 0 <= j < |b| && b[j] == last;
      var rest := b[..j] + b[j + 1..];
      assert b == b[..j] + [last] + b[j + 1..];
      assert multiset(a) == multiset(init) + multiset{last};
      assert multiset(b) == multiset(b[..j]) + multiset{last} + multiset(b[j + 1..]);
      assert multiset(rest) == multiset(b[..j]) + multiset(b[j + 1..]);
      assert multiset(init) == multiset(a) - multiset{last};
      assert multiset(rest) == multiset(b) - multiset{last};
      SumPermutation(init, rest);
      SumAppend(init, last);
      calc {
        Sum(b);
        { SumConcat(b[..j] + [last], b[j + 1..]); }
        Sum(b[..j] + [last]) + Sum(b[j + 1..]);
        { SumAppend(b[..j], last); }
        Sum(b[..j]) + last.amount + Sum(b[j + 1..]);
        { SumConcat(b[..j], b[j + 1..]); }
        Sum(rest) + last.amount;
      }
    }
  }
}
