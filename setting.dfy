/** The Shopify Setting document and its child tables, as the core reads
    them. Database lookups on the child tables become map lookups. */
module Setting {
  import opened Common

  /** A Vendor Account Mapping row: the shipping revenue account and cost
      centre used for a vendor's orders ("" when the row leaves them empty). */
  datatype VendorAccount = VendorAccount(shippingRevenueAccount: string, costCenter: string)

  /** A Payment Method Accounts row. */
  datatype PaymentMethodAccount = PaymentMethodAccount(paymentMethod: string, account: string)

  datatype ShopifySetting = ShopifySetting(
    company: string,
    warehouse: string,
    costCenter: string,
    defaultCustomer: string,
    defaultSalesTaxAccount: string,
    defaultShippingChargesAccount: string,
    taxAccounts: map<string, string>,          // Shopify Tax Account: title -> tax_account
    taxDescriptions: map<string, string>,      // Shopify Tax Account: title -> tax_description
    vendorAccounts: map<string, VendorAccount>,  // Vendor Account Mapping rows with a vendor
    defaultVendorAccount: Option<VendorAccount>, // the row whose vendor is null
    consolidateTaxes: bool,
    addShippingAsItem: bool,
    shippingItem: string,
    salesOrderSeries: string,
    salesInvoiceSeries: string,
    syncSalesInvoice: bool,
    vatEmirate: string,
    cashBankAccount: string,
    paymentMethodAccounts: seq<PaymentMethodAccount>,
    deliveryNoteReturnSeries: string,
    creditNoteSeries: string)

  /** The Vendor Account Mapping lookup for one line item: the row for its
      vendor, else the row with no vendor, else nothing. */
  function VendorFor(s: ShopifySetting, vendor: string): Option<VendorAccount>
  {
    if vendor in s.vendorAccounts then Some(s.vendorAccounts[vendor]) else s.defaultVendorAccount
  }

  /** `tax_account` of the Shopify Tax Account row for a title, "" if none. */
  function MappedTaxAccount(s: ShopifySetting, title: string): string
  {
    if title in s.taxAccounts then s.taxAccounts[title] else ""
  }

  /** `tax_description` of the Shopify Tax Account row for a title, "" if none. */
  function MappedTaxDescription(s: ShopifySetting, title: string): string
  {
    if title in s.taxDescriptions then s.taxDescriptions[title] else ""
  }

  /** Shipping is booked as an order item when the flag is set and a
      shipping item is configured (`cint(add_shipping_as_item) and shipping_item`). */
  predicate ShippingAsItem(s: ShopifySetting)
  {
    s.addShippingAsItem && s.shippingItem != ""
  }
}
