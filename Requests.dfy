/** The request bodies the invoice endpoints accept. */
module Requests {
  import opened Wrappers
  import opened Domain

  datatype CreateInvoiceItem = CreateInvoiceItem(description: string, qty: int, unitPrice: real, vatRate: real)

  datatype CreateInvoiceRequest = CreateInvoiceRequest(
    customerId: Guid,
    issueDate: Date,
    dueDate: Date,
    items: seq<CreateInvoiceItem>)

  datatype ApplyPaymentRequest = ApplyPaymentRequest(amount: real, paymentMethod: string, reference: Option<string>)

  datatype RefundRequest = RefundRequest(amount: real, reason: Option<string>, paymentMethod: string, reference: Option<string>)

  datatype ReversePaymentRequest = ReversePaymentRequest(reason: Option<string>, paymentMethod: string, reference: Option<string>)
}
