/** The Sales Invoice step of shopify/invoice.py: the guard of
    `create_sales_invoice`, the fields it sets on the invoice made from the
    Sales Order, `set_shipping_account` on the invoice's item rows, and the
    bank-account choice and payment entry of
    `make_payament_entry_against_sales_invoice`. The invoice and its item
    rows are objects updated in place. */
module ShopifyInvoice {
  import opened Common
  import opened Payload
  import opened Setting
  import opened OrderSync

  /** An item row of the Sales Invoice. */
  class InvoiceItem {
    var itemCode: string
    var costCenter: string
    var incomeAccount: string

    constructor (itemCode: string, costCenter: string, incomeAccount: string)
      ensures this.itemCode == itemCode && this.costCenter == costCenter && this.incomeAccount == incomeAccount
    {
      this.itemCode := itemCode;
      this.costCenter := costCenter;
      this.incomeAccount := incomeAccount;
    }
  }

  /** The Sales Invoice made from the Sales Order. Its name, item rows and
      grand total come from ERPNext's `make_sales_invoice` and submission,
      which are not part of this model; the constructor takes them as
      given. */
  class SalesInvoice {
    var name: string
    var orderId: string
    var orderNumber: string
    var setPostingTime: bool
    var postingDate: Date
    var dueDate: Date
    var namingSeries: string
    var vatEmirate: string
    var items: seq<InvoiceItem>
    var grandTotal: real
    var comments: seq<string>

    constructor (name: string, items: seq<InvoiceItem>, grandTotal: real)
      ensures this.name == name && this.items == items && this.grandTotal == grandTotal
      ensures orderId == "" && orderNumber == "" && !setPostingTime && namingSeries == ""
      ensures vatEmirate == "" && comments == []
    {
      this.name := name;
      this.items := items;
      this.grandTotal := grandTotal;
      orderId, orderNumber, setPostingTime, namingSeries, vatEmirate := "", "", false, "", "";
      postingDate, dueDate := 0, 0;
      comments := [];
    }
  }

  /** What the guard reads of the Sales Order. */
  datatype SalesOrderState = SalesOrderState(docstatus: int, perBilled: real)

  /** An invoice is made only when none exists for the order id, the Sales
      Order is submitted and not billed at all, and invoice sync is on. */
  predicate ShouldInvoice(order: Order, s: ShopifySetting, so: SalesOrderState, invoicedOrderIds: seq<string>)
  {
    order.id !in invoicedOrderIds && so.docstatus == 1 && so.perBilled == 0.0 && s.syncSalesInvoice
  }

  /** The mapping `vsett` holds after the loops over the line items: the
      lookup for the LAST line item (overwritten at every item, even when
      that lookup finds nothing). None for an order without line items, where
      the source's `vsett` is unbound. */
  function InvoiceVendor(s: ShopifySetting, lis: seq<LineItem>): (v: Option<VendorAccount>)
    ensures lis != [] ==> v == VendorFor(s, lis[|lis| - 1].vendor)
  {
    if lis == [] then None else VendorFor(s, lis[|lis| - 1].vendor)
  }

  /** The mapping is decided by the last line item alone: whatever line
      items precede it, it is that item's vendor row, else the row with no
      vendor, else none. */
  lemma InvoiceVendorIsLast(s: ShopifySetting, pre: seq<LineItem>, li: LineItem)
    ensures InvoiceVendor(s, pre + [li]) == InvoiceVendor(s, [li])
    ensures li.vendor in s.vendorAccounts ==> InvoiceVendor(s, pre + [li]) == Some(s.vendorAccounts[li.vendor])
    ensures li.vendor !in s.vendorAccounts ==> InvoiceVendor(s, pre + [li]) == s.defaultVendorAccount
  {
  }

  /** The cost centre given to the shipping item rows. */
  function ShippingCostCenter(s: ShopifySetting, lis: seq<LineItem>): string
  {
    match InvoiceVendor(s, lis)
    case Some(v) => Or(v.costCenter, s.costCenter)
    case None => s.costCenter
  }

  /** The income account given to the shipping item rows. */
  function ShippingIncomeAccount(s: ShopifySetting, lis: seq<LineItem>): string
  {
    match InvoiceVendor(s, lis)
    case Some(v) => Or(v.shippingRevenueAccount, s.defaultShippingChargesAccount)
    case None => s.defaultShippingChargesAccount
  }

  /** Only the last line item's vendor matters: the mapping of an earlier
      vendor is lost when the last vendor has none, and the setting's
      defaults are used only when the mapping leaves a field empty. */
  lemma ShippingAccountsFromLastItem(s: ShopifySetting, lis: seq<LineItem>, li: LineItem)
    requires li.vendor !in s.vendorAccounts && s.defaultVendorAccount.None?
    ensures ShippingCostCenter(s, lis + [li]) == s.costCenter
    ensures ShippingIncomeAccount(s, lis + [li]) == s.defaultShippingChargesAccount
    ensures forall v :: v in s.vendorAccounts ==>
              ShippingCostCenter(s, [li] + [li.(vendor := v)]) == Or(s.vendorAccounts[v].costCenter, s.costCenter)
  {
  }

  /** `set_shipping_account`: every row of the shipping item gets the cost
      centre and income account of the last line item's mapping, falling
      back to the setting's; other rows are untouched. An order without line
      items leaves every row as it is and reports failure (`vsett` unbound). */
  method SetShippingAccount(order: Order, items: seq<InvoiceItem>, s: ShopifySetting) returns (ok: bool)
    modifies set x | x in items
    ensures ok <==> order.lineItems != []
    ensures forall x :: x in items ==> x.itemCode == old(x.itemCode)
    ensures forall x :: x in items && (!ok || x.itemCode != s.shippingItem) ==>
              x.costCenter == old(x.costCenter) && x.incomeAccount == old(x.incomeAccount)
    ensures ok ==> forall x :: x in items && x.itemCode == s.shippingItem ==>
              x.costCenter == ShippingCostCenter(s, order.lineItems)
              && x.incomeAccount == ShippingIncomeAccount(s, order.lineItems)
  {
    var costCenter := s.costCenter;
    var shippingChargesAccount := s.defaultShippingChargesAccount;
    var lis := order.lineItems;
    if lis == [] {
      return false;
    }
    var vsett: Option<VendorAccount> := None;
    var i := 0;
    while i < |lis|
      invariant 0 <= i <= |lis|
      invariant i > 0 ==> vsett == VendorFor(s, lis[i - 1].vendor)
    {
      vsett := VendorFor(s, lis[i].vendor);
      i := i + 1;
    }
    if vsett.Some? {
      shippingChargesAccount := Or(vsett.value.shippingRevenueAccount, shippingChargesAccount);
      costCenter := Or(vsett.value.costCenter, costCenter);
    }
    var j := 0;
    while j < |items|
      invariant 0 <= j <= |items|
      invariant forall x :: x in items ==> x.itemCode == old(x.itemCode)
      invariant forall x :: x in items && x.itemCode != s.shippingItem ==>
                  x.costCenter == old(x.costCenter) && x.incomeAccount == old(x.incomeAccount)
      invariant forall k :: 0 <= k < j && items[k].itemCode == s.shippingItem ==>
                  items[k].costCenter == costCenter && items[k].incomeAccount == shippingChargesAccount
    {
      var item := items[j];
      if s.shippingItem == item.itemCode {
        item.costCenter := costCenter;
        item.incomeAccount := shippingChargesAccount;
      }
      j := j + 1;
    }
    ok := true;
    forall x | x in items && x.itemCode == s.shippingItem
      ensures x.costCenter == costCenter && x.incomeAccount == shippingChargesAccount
    {
      var k :| 0 <= k < |items| && items[k] == x;
    }
  }

  /** Some line item carries tax lines. */
  predicate AnyTaxed(lis: seq<LineItem>)
  {
    exists i :: 0 <= i < |lis| && lis[i].taxLines != []
  }

  /** The loop of `create_sales_invoice` setting the VAT emirate. */
  method SetVatEmirate(inv: SalesInvoice, lis: seq<LineItem>, s: ShopifySetting)
    modifies inv
    ensures inv.vatEmirate == (if AnyTaxed(lis) && s.vatEmirate != "" then s.vatEmirate else old(inv.vatEmirate))
    ensures inv.name == old(inv.name) && inv.items == old(inv.items) && inv.grandTotal == old(inv.grandTotal)
    ensures inv.orderId == old(inv.orderId) && inv.orderNumber == old(inv.orderNumber)
    ensures inv.setPostingTime == old(inv.setPostingTime) && inv.namingSeries == old(inv.namingSeries)
    ensures inv.postingDate == old(inv.postingDate) && inv.dueDate == old(inv.dueDate)
    ensures inv.comments == old(inv.comments)
  {
    var i := 0;
    while i < |lis|
      invariant 0 <= i <= |lis|
      invariant inv.vatEmirate == (if AnyTaxed(lis[..i]) && s.vatEmirate != "" then s.vatEmirate else old(inv.vatEmirate))
      invariant inv.name == old(inv.name) && inv.items == old(inv.items) && inv.grandTotal == old(inv.grandTotal)
      invariant inv.orderId == old(inv.orderId) && inv.orderNumber == old(inv.orderNumber)
      invariant inv.setPostingTime == old(inv.setPostingTime) && inv.namingSeries == old(inv.namingSeries)
      invariant inv.postingDate == old(inv.postingDate) && inv.dueDate == old(inv.dueDate)
      invariant inv.comments == old(inv.comments)
    {
      assert AnyTaxed(lis[..i + 1]) <==> AnyTaxed(lis[..i]) || lis[i].taxLines != [] by {
        assert forall k :: 0 <= k < i ==> lis[..i + 1][k] == lis[..i][k];
        assert lis[..i + 1][i] == lis[i];
      }
      if lis[i].taxLines != [] && s.vatEmirate != "" {
        inv.vatEmirate := s.vatEmirate;
      }
      i := i + 1;
    }
    assert lis[..i] == lis;
  }

  /** `cash_bank_account` after the payment-method loop: every configured
      method named among the order's gateways overwrites it with its account,
      or keeps it when that account is empty. */
  function BankAccount(pms: seq<PaymentMethodAccount>, gateways: seq<string>, current: string): string
    decreases |pms|
  {
    if pms == [] then current
    else
      var p := pms[|pms| - 1];
      var before := BankAccount(pms[..|pms| - 1], gateways, current);
      if p.paymentMethod in gateways then Or(p.account, before) else before
  }

  /** A payment method that is among the gateways and has an account. */
  predicate Supplies(p: PaymentMethodAccount, gateways: seq<string>)
  {
    p.paymentMethod in gateways && p.account != ""
  }

  /** The setting's account is kept when no method supplies one. */
  lemma {:induction false} BankAccountKept(pms: seq<PaymentMethodAccount>, gateways: seq<string>, current: string)
    requires forall j :: 0 <= j < |pms| ==> !Supplies(pms[j], gateways)
    ensures BankAccount(pms, gateways, current) == current
    decreases |pms|
  {
    if pms != [] {
      var n := |pms| - 1;
      assert forall j :: 0 <= j < n ==> pms[..n][j] == pms[j];
      BankAccountKept(pms[..n], gateways, current);
    }
  }

  /** The bank account is the account of the last method that supplies
      one. */
  lemma {:induction false} BankAccountIsLastSupplier(pms: seq<PaymentMethodAccount>, gateways: seq<string>,
                                                     current: string, j: nat)
    requires j < |pms| && Supplies(pms[j], gateways)
    requires forall k :: j < k < |pms| ==> !Supplies(pms[k], gateways)
    ensures BankAccount(pms, gateways, current) == pms[j].account
    decreases |pms|
  {
    var n := |pms| - 1;
    if j < n {
      assert pms[..n][j] == pms[j];
      assert forall k :: j < k < n ==> pms[..n][k] == pms[k];
      BankAccountIsLastSupplier(pms[..n], gateways, current, j);
    }
  }

  /** The payment-method loop: returns the setting with the chosen cash
      bank account. */
  method ChooseBankAccount(s: ShopifySetting, gateways: seq<string>) returns (s': ShopifySetting)
    ensures s' == s.(cashBankAccount := BankAccount(s.paymentMethodAccounts, gateways, s.cashBankAccount))
  {
    s' := s;
    var pa := s.paymentMethodAccounts;
    if |gateways| > 0 {
      var i := 0;
      while i < |pa|
        invariant 0 <= i <= |pa|
        invariant s' == s.(cashBankAccount := BankAccount(pa[..i], gateways, s.cashBankAccount))
      {
        assert pa[..i + 1][..i] == pa[..i];
        var p := pa[i];
        if p.paymentMethod in gateways {
          var bankAccount := Or(p.account, s'.cashBankAccount);
          s' := s'.(cashBankAccount := bankAccount);
        }
        i := i + 1;
      }
      assert pa[..i] == pa;
    } else {
      NoGatewayKeepsAccount(pa, gateways, s.cashBankAccount);
    }
  }

  lemma {:induction false} NoGatewayKeepsAccount(pms: seq<PaymentMethodAccount>, gateways: seq<string>,
                                                 current: string)
    requires gateways == []
    ensures BankAccount(pms, gateways, current) == current
    decreases |pms|
  {
    if pms != [] {
      NoGatewayKeepsAccount(pms[..|pms| - 1], gateways, current);
    }
  }

  /** The payment entry against the invoice. */
  datatype PaymentEntry = PaymentEntry(referenceNo: string, postingDate: Date, referenceDate: Date,
                                       bankAccount: string)

  datatype InvoiceOutcome =
    | NotInvoiced                                          // the guard fails: nothing is made
    | NoLineItems                                          // `vsett` unbound: an error, rolled back
    | Invoiced(payment: Option<PaymentEntry>, setting: ShopifySetting)

  /** The order fields `create_sales_invoice` sets one at a time. */
  method SetOrderFields(inv: SalesInvoice, order: Order, postingDate: Date, namingSeries: string)
    modifies inv
    ensures inv.orderId == order.id && inv.orderNumber == order.name && inv.setPostingTime
    ensures inv.postingDate == postingDate && inv.dueDate == postingDate && inv.namingSeries == namingSeries
    ensures inv.name == old(inv.name) && inv.items == old(inv.items) && inv.grandTotal == old(inv.grandTotal)
    ensures inv.vatEmirate == old(inv.vatEmirate) && inv.comments == old(inv.comments)
  {
    inv.orderId := order.id;
    inv.orderNumber := order.name;
    inv.setPostingTime := true;
    inv.postingDate := postingDate;
    inv.dueDate := postingDate;
    inv.namingSeries := namingSeries;
  }

  /** The rest of `create_sales_invoice` once the shipping accounts are
      set: the VAT emirate, the payment entry for a positive grand total
      (with the bank account chosen first) and the order-note comment. */
  method FinishInvoice(inv: SalesInvoice, order: Order, s: ShopifySetting, postingDate: Date)
    returns (payment: Option<PaymentEntry>, setting: ShopifySetting)
    modifies inv
    ensures inv.name == old(inv.name) && inv.items == old(inv.items) && inv.grandTotal == old(inv.grandTotal)
    ensures inv.orderId == old(inv.orderId) && inv.orderNumber == old(inv.orderNumber)
    ensures inv.setPostingTime == old(inv.setPostingTime) && inv.namingSeries == old(inv.namingSeries)
    ensures inv.postingDate == old(inv.postingDate) && inv.dueDate == old(inv.dueDate)
    ensures inv.vatEmirate == (if AnyTaxed(order.lineItems) && s.vatEmirate != "" then s.vatEmirate
                               else old(inv.vatEmirate))
    ensures inv.comments == old(inv.comments) + (if order.note != "" then ["Order Note: " + order.note] else [])
    ensures payment.Some? <==> inv.grandTotal > 0.0
    ensures payment.Some? ==>
              payment.value == PaymentEntry(inv.name, postingDate, postingDate,
                                            BankAccount(s.paymentMethodAccounts, order.paymentGatewayNames,
                                                        s.cashBankAccount))
    ensures setting.cashBankAccount
            == (if inv.grandTotal > 0.0
                then BankAccount(s.paymentMethodAccounts, order.paymentGatewayNames, s.cashBankAccount)
                else s.cashBankAccount)
    ensures setting == s.(cashBankAccount := setting.cashBankAccount)
  {
    SetVatEmirate(inv, order.lineItems, s);
    setting := s;
    payment := None;
    if inv.grandTotal > 0.0 {
      setting := ChooseBankAccount(s, order.paymentGatewayNames);
      payment := Some(PaymentEntry(inv.name, postingDate, postingDate, setting.cashBankAccount));
    }
    if order.note != "" {
      inv.comments := inv.comments + ["Order Note: " + order.note];
    }
  }

  /** `create_sales_invoice` on the invoice `inv` that `make_sales_invoice`
      makes from the Sales Order. */
  method CreateSalesInvoice(order: Order, s: ShopifySetting, so: SalesOrderState, invoicedOrderIds: seq<string>,
                            inv: SalesInvoice, today: Date)
    returns (outcome: InvoiceOutcome)
    modifies inv, set x | x in inv.items
    ensures outcome.NotInvoiced? <==> !ShouldInvoice(order, s, so, invoicedOrderIds)
    ensures outcome.NoLineItems? <==> ShouldInvoice(order, s, so, invoicedOrderIds) && order.lineItems == []
    ensures !outcome.Invoiced? ==> unchanged(inv) && forall x :: x in inv.items ==> unchanged(x)
    ensures outcome.Invoiced? ==>
              && inv.items == old(inv.items) && inv.name == old(inv.name) && inv.grandTotal == old(inv.grandTotal)
              && inv.orderId == order.id && inv.orderNumber == order.name && inv.setPostingTime
              && inv.postingDate == CreatedDate(order, today) && inv.dueDate == CreatedDate(order, today)
              && inv.namingSeries == Or(s.salesInvoiceSeries, "SI-Shopify-")
              && inv.vatEmirate == (if AnyTaxed(order.lineItems) && s.vatEmirate != "" then s.vatEmirate
                                    else old(inv.vatEmirate))
              && inv.comments == old(inv.comments) + (if order.note != "" then ["Order Note: " + order.note] else [])
              && (forall x :: x in inv.items ==> x.itemCode == old(x.itemCode))
              && (forall x :: x in inv.items && x.itemCode != s.shippingItem ==>
                    x.costCenter == old(x.costCenter) && x.incomeAccount == old(x.incomeAccount))
              && (forall x :: x in inv.items && x.itemCode == s.shippingItem ==>
                    x.costCenter == ShippingCostCenter(s, order.lineItems)
                    && x.incomeAccount == ShippingIncomeAccount(s, order.lineItems))
              && (outcome.payment.Some? <==> inv.grandTotal > 0.0)
              && (outcome.payment.Some? ==>
                    outcome.payment.value
                    == PaymentEntry(inv.name, inv.postingDate, inv.postingDate,
                                    BankAccount(s.paymentMethodAccounts, order.paymentGatewayNames, s.cashBankAccount)))
              && outcome.setting.cashBankAccount
                 == (if inv.grandTotal > 0.0
                     then BankAccount(s.paymentMethodAccounts, order.paymentGatewayNames, s.cashBankAccount)
                     else s.cashBankAccount)
    ensures outcome.Invoiced? ==> outcome.setting == s.(cashBankAccount := outcome.setting.cashBankAccount)
  {
    if !(order.id !in invoicedOrderIds && so.docstatus == 1 && so.perBilled == 0.0 && s.syncSalesInvoice) {
      return NotInvoiced;
    }
    if order.lineItems == [] {
      return NoLineItems;
    }
    var postingDate := CreatedDate(order, today);
    SetOrderFields(inv, order, postingDate, Or(s.salesInvoiceSeries, "SI-Shopify-"));
    var ok := SetShippingAccount(order, inv.items, s);
    var payment, setting := FinishInvoice(inv, order, s, postingDate);
    outcome := Invoiced(payment, setting);
  }
}
