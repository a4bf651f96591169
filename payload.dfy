/** The storefront payloads the core reads: orders, their line items and
    shipping lines, and refunds. Absent numeric fields are 0, absent lists are
    empty and absent strings are "". The source reads some fields with
    `or 0`, `or []` or `or ""` and tests others for truthiness, but it
    iterates several lists (tax lines, order adjustments, refund lines, line
    items) without a default and would raise on an absent one; the payloads
    here always carry them. */
module Payload {
  import opened Common

  /** Storefront quantities are positive integers; the source divides by them. */
  type Quantity = q: int | q > 0 witness 1

  /** A tax line: `rate` is a fraction (0.1 for 10%), `price` the tax amount. */
  datatype TaxLine = TaxLine(title: string, rate: real, price: real)

  datatype LineItem = LineItem(
    productExists: bool,
    vendor: string,
    name: string,
    productId: string,
    variantId: string,
    quantity: Quantity,
    price: real,
    uom: string,
    discountAllocations: seq<real>,  // the `amount` of each allocation
    taxLines: seq<TaxLine>)

  /** `priced` says whether the line's `price` is truthy. The storefront
      sends prices as decimal strings, so "0.00" is priced; `price` is the
      value it parses to. */
  datatype ShippingLine = ShippingLine(
    title: string,
    priced: bool,
    price: real,
    discountAllocations: seq<real>,
    taxLines: seq<TaxLine>)

  datatype Order = Order(
    id: string,
    name: string,                 // the storefront order number, e.g. "#1001"
    createdAt: Option<Date>,      // `getdate(created_at)`
    customerId: string,
    lineItems: seq<LineItem>,
    shippingLines: seq<ShippingLine>,
    taxesIncluded: bool,
    financialStatus: string,
    fulfillmentCount: nat,
    note: string,
    paymentGatewayNames: seq<string>)

  /** An order-level refund adjustment (`order_adjustments`). */
  datatype Adjustment = Adjustment(reason: string, amount: real, taxAmount: real)

  /** A refunded line (`refund_line_items`): the original line item's
      product and variant, with the refunded subtotal and tax. */
  datatype RefundLine = RefundLine(
    productId: string,
    variantId: string,
    quantity: int,
    subtotal: real,
    totalTax: real)

  datatype RefundPayload = RefundPayload(
    orderId: string,
    adjustments: seq<Adjustment>,
    refundLines: seq<RefundLine>)

  function TaxPrice(t: TaxLine): real { t.price }

  /** Sum of the prices of a list of tax lines. */
  function TaxTotal(tls: seq<TaxLine>): real
  {
    SumOf(tls, TaxPrice)
  }
}
