# FinTrack invoice ledger in Dafny

A model of the invoice and payment ledger of FinTrack, an invoicing API.
Customers get invoices. Each invoice has items, totals fixed when it is
created, a base status (Draft, Issued or Cancelled), an optimistic
concurrency token (`RowVersion`) and an append-only list of signed payment
entries:

- a payment is positive;
- a refund is negative;
- a reversal is the negation of one payment and points back at it
  through `ReversedPaymentId`.

What an invoice has been paid is always the sum of its entries. The status
shown to clients comes from the base status, the total and that sum.

The model has six modules:

- `Wrappers`: `Option` and `Result`.
- `Domain`: the entities. `Invoice.PaidAmount` and `Invoice.Outstanding` are
  the derived sums, and `NewInvoice` gives the defaults of a new invoice.
- `Requests`: the request bodies.
- `Calculator`: `InvoiceCalculator.Calculate`, as a loop proved against the
  sums it accumulates.
- `Ledger`: the display status, the error outcomes of the endpoints and the
  guard chain of each ledger operation (`PayStep`, `ReverseStep`,
  `RefundStep`). Each guard chain is a function from the invoice the request
  loaded to the invoice written back, or to the error answered. It also holds
  the invariant of a stored invoice (`WellFormed`) and what it means for a
  loaded copy to be an earlier version of the stored one (`SnapshotOf`).
- `Store`: the controller as a class, `InvoiceStore`. It holds maps from ids
  to customers and to invoices. `Create`, `Issue`, `Cancel`, `ApplyPayment`,
  `ReversePayment` and `Refund` are methods with the controller's guards in
  the controller's order. Each one's contract ties its outcome to the
  `Ledger` functions and keeps the store invariant: ids match, every invoice
  is well formed and has a known customer, and invoice numbers are unique.
  `Get` and `List` are read functions.
- `Audit`: the save-time audit interceptor. It decides which tracked changes
  get an audit record, and builds the record: entity type, key, action, old
  and new scalar values, user and time.

Decimal amounts are exact `real`s. Ids and instants are integers. The acting
user, the clock and freshly generated ids arrive in a `Capture` value. The
invoice number arrives as a parameter.

Optimistic concurrency is modelled as a sequential compare of the version
token. `Issue` and `Cancel` receive the copy of the invoice that their request
loaded (`seen`). They decide on that copy, as the controller decides on
the entity it loaded. A write of the invoice row succeeds only if the stored
token still equals the copy's token, and the write increments it; otherwise
the answer is `Conflict` and nothing changes. Cancelling a copy that is
already Cancelled changes no property, so the save writes nothing: it always
succeeds and the token stays. Inserting a payment entry never changes the
token (InvoicesController.cs:192-194).

The model follows the code's outcomes:

- an unknown customer on `Create` is a BadRequest;
- a duplicate reference and a second reversal of the same payment are
  BadRequests;
- only a token mismatch is a `Conflict`;
- a missing invoice or payment is NotFound;
- an invoice number that is already taken makes the save fail on the unique
  index (AppDbContext.cs:75-77), which the controller does not catch. It is
  `UniqueIndexViolation` here.

`Create` does not ask for at least one item: its success condition says
nothing about the items.

Some behaviour of the code is stated as lemmas rather than hidden:

- A reversal is limited only by the net paid being positive. After a
  refund, reversing a larger payment takes the net paid below zero
  (`Ledger.ReversalCanOverdraw`).
- A cancel that loaded the invoice before a payment was inserted still
  succeeds, because the insert leaves the token alone. That leaves a
  Cancelled invoice with money on it (`Store.CancelRacesPayment`).

## Model

| member | source | states |
|---|---|---|
| Domain.NewInvoice | src/FinTrack.Domain/Entities/Invoice.cs:20-36 | a new invoice is Draft with no items and no payments, so its paid amount is 0 and its outstanding amount is its total |
| Domain.AppendEntry | src/FinTrack.Domain/Entities/Invoice.cs:35-36 | appending an entry of amount a raises PaidAmount by exactly a and lowers Outstanding by exactly a; Total is unchanged |
| Domain.SumAppend | src/FinTrack.Domain/Entities/Invoice.cs:35 | the paid sum of entries plus one more is the old sum plus its signed amount |
| Domain.SumConcat | src/FinTrack.Domain/Entities/Invoice.cs:35 | the paid sum over two entry lists together is the sum of their sums |
| Domain.SumPermutation | src/FinTrack.Domain/Entities/Invoice.cs:35 | PaidAmount does not depend on the order of the entries: two lists with the same entries (as a multiset) have the same sum |
| Calculator.Calculate | src/FinTrack.Application/Services/InvoiceCalculator.cs:5-18 | the loop returns subtotal = the sum of qty × unitPrice, vatTotal = the sum of (qty × unitPrice) × vatRate, total = subtotal + vatTotal, and (0, 0, 0) for no lines |
| Calculator.TotalsOfConcat | src/FinTrack.Application/Services/InvoiceCalculator.cs:9-15 | the totals of two line lists together are the componentwise sums of their totals |
| Calculator.TotalsNonNegative | src/FinTrack.Application/Services/InvoiceCalculator.cs:11-17 | non-negative quantities, prices and rates give a non-negative subtotal and VAT total, and a total of at least the subtotal |
| Ledger.ComputeDisplayStatus | src/FinTrack.Api/Controllers/InvoicesController.cs:21-31 | Cancelled and Draft are returned unchanged; otherwise the result is Paid, PartiallyPaid or the base status; for Issued, Paid exactly when total ≤ paid, PartiallyPaid exactly when 0 < paid < total, and Issued exactly when paid ≤ 0 < total − paid |
| Ledger.ListStatus | src/FinTrack.Api/Controllers/InvoicesController.cs:389-394 | the status expression List evaluates inline over the entries equals ComputeDisplayStatus of the base status, the total and the entries' sum |
| Ledger.FindPayment | src/FinTrack.Api/Controllers/InvoicesController.cs:227-228 | a payment found is the first entry with the id asked for (no earlier entry has it); none is found exactly when no entry has that id |
| Ledger.FindPaymentAppend | src/FinTrack.Api/Controllers/InvoicesController.cs:227 | appending entries does not change which entry is found first for an id already present |
| Ledger.PayStep | src/FinTrack.Api/Controllers/InvoicesController.cs:158-197 | a payment succeeds exactly when the amount is positive, the invoice exists and is neither Draft nor Cancelled, the amount is at most the outstanding amount, and the reference is blank or unused; success appends exactly one entry of that amount and changes nothing else, leaving paid = old paid + amount ≤ total; a blank reference never collides; a missing invoice (with a positive amount) is NotFound, every other failure a BadRequest, never Conflict; it keeps an invoice well formed |
| Ledger.ReverseStep | src/FinTrack.Api/Controllers/InvoicesController.cs:219-256 | a reversal succeeds exactly when the invoice exists and is neither Draft nor Cancelled, has an entry with that id whose amount is positive, no entry already reverses it, and the net paid is positive; success appends exactly one entry of −original amount linked to the original, leaving paid = old paid − original amount; a missing invoice is NotFound, a payment id not on an open invoice is NotFound, every other failure a BadRequest, never Conflict; it keeps an invoice well formed |
| Ledger.RefundStep | src/FinTrack.Api/Controllers/InvoicesController.cs:276-307 | a refund succeeds exactly when the amount is positive, the invoice exists and is neither Draft nor Cancelled, the net paid is positive and the amount is at most the net paid; success appends exactly one unlinked entry of −amount, leaving 0 ≤ new paid = paid − amount and outstanding = total − new paid; a missing invoice (with a positive amount) is NotFound, every other failure a BadRequest, never Conflict; it keeps an invoice well formed |
| Ledger.ReverseTwiceRejected | src/FinTrack.Api/Controllers/InvoicesController.cs:232-234 | after a successful reversal, reversing the same payment again is a BadRequest (already reversed) |
| Ledger.DuplicateReferenceRejected | src/FinTrack.Api/Controllers/InvoicesController.cs:175-179 | after a payment with a non-blank reference, a second payment with the same reference is refused, and it is refused as a duplicate whenever it would otherwise pass the amount checks |
| Ledger.RefundAllRestoresIssued | src/FinTrack.Api/Controllers/InvoicesController.cs:288-309 | refunding the whole net paid of an issued invoice succeeds and leaves nothing paid, the total outstanding and the display status Issued |
| Ledger.ReversalCanOverdraw | src/FinTrack.Api/Controllers/InvoicesController.cs:236-257 | on a well-formed issued invoice with 50 and 30 paid and 60 refunded (20 net), reversing the 50 payment succeeds and leaves the net paid at −30, so more than the total is outstanding |
| Ledger.SettlementScenario | src/FinTrack.Api/Controllers/InvoicesController.cs:170-199 | on an issued invoice of 115.00, paying 50.00 leaves 65.00 outstanding (PartiallyPaid), paying 65.00 more leaves 0 (Paid), and a further 0.01 exceeds the outstanding amount |
| Ledger.LinesOf | src/FinTrack.Api/Controllers/InvoicesController.cs:42 | one (qty, unitPrice, vatRate) line per requested item, in order |
| Ledger.ItemsOf | src/FinTrack.Api/Controllers/InvoicesController.cs:56-69 | one stored item per requested item, in order, each with LineTotal = Qty × UnitPrice and VatAmount = LineTotal × VatRate |
| Ledger.ItemsAddUpToTotal | src/FinTrack.Api/Controllers/InvoicesController.cs:42-69 | the stored items' line totals plus VAT amounts add up to the subtotal plus the VAT total the calculator gives for the same items |
| Store.ReplaceInvoice | src/FinTrack.Infrastructure/Data/AppDbContext.cs:75-77 | writing back a later, well-formed version of a stored invoice keeps every stored invoice well formed, its customer known and invoice numbers unique |
| Store.InvoiceStore.Create | src/FinTrack.Api/Controllers/InvoicesController.cs:35-84 | an unknown customer is a BadRequest and stores nothing; a taken number fails on the unique index and stores nothing; otherwise exactly one Draft invoice with no payments is added, with the calculator's subtotal, VAT total and total of its items and one item per requested item |
| Store.InvoiceStore.Issue | src/FinTrack.Api/Controllers/InvoicesController.cs:88-120 | an invoice that was not loaded is NotFound; one loaded in any status but Draft is a BadRequest; a changed token is Conflict; on those paths nothing changes; otherwise only the status becomes Issued and the token moves on, and the entries are untouched; an up-to-date copy never gets Conflict |
| Store.InvoiceStore.Cancel | src/FinTrack.Api/Controllers/InvoicesController.cs:124-152 | an invoice that was not loaded is NotFound; a loaded net paid above zero is a BadRequest, whatever the status; a copy loaded as Cancelled succeeds and nothing is written (no version check, the token stays); otherwise a changed token is Conflict, and on success only the status becomes Cancelled and the token moves on; an up-to-date copy never gets Conflict |
| Store.InvoiceStore.InsertEntry | src/FinTrack.Api/Controllers/InvoicesController.cs:192-194 | inserting an entry appends it to that invoice only, leaving its status and token alone, and Get then reports paid = old paid + the entry's amount with the matching outstanding amount and status |
| Store.InvoiceStore.ApplyPayment | src/FinTrack.Api/Controllers/InvoicesController.cs:156-211 | the outcome and the new state are exactly PayStep's on the stored invoice; on success the status and the token are unchanged, and the returned paid (≤ total), outstanding and status equal what Get reports afterwards |
| Store.InvoiceStore.ReversePayment | src/FinTrack.Api/Controllers/InvoicesController.cs:215-270 | the outcome and the new state are exactly ReverseStep's on the stored invoice; on success the token is unchanged, and the returned paid, outstanding and status equal what Get reports afterwards |
| Store.InvoiceStore.Refund | src/FinTrack.Api/Controllers/InvoicesController.cs:274-320 | the outcome and the new state are exactly RefundStep's on the stored invoice; on success the token is unchanged, and the returned paid (≥ 0), outstanding and status equal what Get reports afterwards |
| Store.InvoiceStore.Get | src/FinTrack.Api/Controllers/InvoicesController.cs:323-376 | NotFound exactly when there is no such invoice; otherwise paid is the sum of its entries, outstanding = total − paid, the status is ComputeDisplayStatus of them, and the same entries are listed |
| Store.InvoiceStore.List | src/FinTrack.Api/Controllers/InvoicesController.cs:379-404 | one summary per stored invoice, whose status, paid and outstanding amounts agree with Get, and which carries its customer's name |
| Store.ConcurrentIssue | src/FinTrack.Api/Controllers/InvoicesController.cs:90-106 | two requests that loaded the same Draft invoice both issue it: the first succeeds and the second gets Conflict |
| Store.CancelTwice | src/FinTrack.Api/Controllers/InvoicesController.cs:126-144 | two requests that loaded the same Cancelled invoice with nothing paid both cancel it: both succeed and the store is unchanged |
| Store.CancelRacesPayment | src/FinTrack.Api/Controllers/InvoicesController.cs:126-144 | a cancel that loaded an issued invoice before a payment was captured on it still succeeds, leaving a Cancelled invoice with a positive paid amount |
| Audit.ActionName | src/FinTrack.Infrastructure/Auditing/AuditSaveChangesInterceptor.cs:74-80 | "Created" exactly for Added, "Updated" exactly for Modified, "Deleted" exactly for Deleted |
| Audit.ScalarValues | src/FinTrack.Infrastructure/Auditing/AuditSaveChangesInterceptor.cs:90-127 | the value map never holds RowVersion, holds every other property name, and for each name holds the value written last |
| Audit.GetScalarValues | src/FinTrack.Infrastructure/Auditing/AuditSaveChangesInterceptor.cs:90-127 | the loop's map is ScalarValues of the properties: no RowVersion and every other property name |
| Audit.ValueOf | src/FinTrack.Infrastructure/Auditing/AuditSaveChangesInterceptor.cs:137 | the value read for a property name is the value of the first property with that name, and null when no property has it |
| Audit.TryGetPrimaryKeyValue | src/FinTrack.Infrastructure/Auditing/AuditSaveChangesInterceptor.cs:129-139 | "" when there is no primary key or no key property; otherwise the current key value, the original one when the current is null, and "" when both are null |
| Audit.Record | src/FinTrack.Infrastructure/Auditing/AuditSaveChangesInterceptor.cs:64-85 | the record has the entity's type name, key and action; its old values are none for an Added entry and otherwise the scalar value map of the original values; its new values are none for a Deleted entry and otherwise the scalar value map of the current values, so they cover every property but RowVersion; user and time are the ones given |
| Audit.BuildRecord | src/FinTrack.Infrastructure/Auditing/AuditSaveChangesInterceptor.cs:64-85 | the record built with the value-map loop is Record of the entry |
| Audit.RecordsStep | src/FinTrack.Infrastructure/Auditing/AuditSaveChangesInterceptor.cs:50-85 | one more selected entry adds its record, unless it is an invoice whose only change is the token |
| Audit.SelectedConcat | src/FinTrack.Infrastructure/Auditing/AuditSaveChangesInterceptor.cs:43-46 | the selection keeps entry order: the selection of two lists together is the first's followed by the second's |
| Audit.RecordsConcat | src/FinTrack.Infrastructure/Auditing/AuditSaveChangesInterceptor.cs:50-86 | the records of two selections together are the first's followed by the second's |
| Audit.AuditTrailOfOne | src/FinTrack.Infrastructure/Auditing/AuditSaveChangesInterceptor.cs:43-85 | one entry gives exactly its record when it is added, modified or deleted, is not an audit record, and is not an invoice whose only change is the token; otherwise it gives nothing |
| Audit.AuditTrailConcat | src/FinTrack.Infrastructure/Auditing/AuditSaveChangesInterceptor.cs:50-86 | the records of a save follow entry order: two entry lists together give the first's records followed by the second's, so every audited entry gives exactly one record |
| Audit.AuditTrailEmpty | src/FinTrack.Infrastructure/Auditing/AuditSaveChangesInterceptor.cs:43-48 | a save adds nothing exactly when none of its entries is audited |
| Audit.AuditSink.WriteAudit | src/FinTrack.Infrastructure/Auditing/AuditSaveChangesInterceptor.cs:39-87 | the audit log grows by exactly the records of the save's entries, in order |
| Audit.AuditSink.AddRecords | src/FinTrack.Infrastructure/Auditing/AuditSaveChangesInterceptor.cs:50-86 | the loop appends one record per selected entry, in order, skipping invoices whose only change is the token |

## Left out

- HTTP plumbing is not modelled: routing, role attributes, response shapes and claims parsing. The acting user's id is a parameter.
- The database is not modelled: EF Core mapping, `Include` and `SaveChangesAsync` become in-memory maps, and the migrations are out. The column rounding to 2 and 4 decimal places happens in the database and is not modelled; decimal overflow is not modelled either.
- Real concurrency is not modelled: the payment path's check-then-insert race and true interleavings are out. Only the sequential token compare of Issue and Cancel is modelled, with the request's loaded copy passed in.
- The clock, the random invoice number and fresh GUIDs are parameters. The invoice number format is not modelled.
- Store.InvoiceStore.Create: requires the new invoice id to be unused, as a freshly generated GUID is; payment and item ids are given.
- Store.InvoiceStore.Get: lists the entries in stored order instead of newest first by capture time; its contract says only that they are the same entries.
- Store.InvoiceStore.List: returns a map keyed by invoice id instead of a list ordered by creation time, newest first.
- Store.InvoiceStore.List: requires the store invariant, so every invoice's customer is known, as the foreign key guarantees in the database.
- Customer creation and lookup (the customers controller) are not modelled: the store starts with a given customer map.
- Authentication is not modelled: JWT issuance, password hashing and reading the user id from the request.
- The audit read endpoint and the program's service wiring are not modelled.
- Audit.ScalarValues: values are an abstract null-or-text datatype. The runtime type tests that keep scalars and turn other objects into their `ToString` form are not modelled, and neither is the JSON serialisation of the value maps.
- Audit.AuditSink.WriteAudit: the early return when there is no data context is not modelled. Neither are the synchronous and asynchronous save hooks that call it. The record's own id is not modelled.
- Audit.TryGetPrimaryKeyValue: a key property missing from the value lists reads as null.
