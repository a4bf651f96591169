# Shopify ↔ ERPNext integration core, modelled in Dafny

This project models the accounting core of the Shopify integration in
`ecommerce_integrations`. It covers four jobs:

- Turning a storefront order into an ERPNext Sales Order. This builds the
  item rows (net rate, per-unit discount, missing-product gate) and the tax
  rows (account-head resolution, vendor routing, shipping lines, optional
  consolidation by account head). Around that sit the idempotent sync guard,
  the invoice / delivery-note cascade and the cancel-or-flag rule.
- Reversing a delivered order for a refund. This sums the shipping refund,
  negates the refunded delivery-note lines and rewrites the tax rows of the
  return note. It then adds a credit note and a refund payment.
- Invoicing a paid order. This is a guard, then the invoice fields, the
  shipping item's income account and cost center, the VAT emirate, the
  payment entry and the bank account chosen from the payment gateways.
- Pushing stock levels to the storefront. This covers selecting the stale
  Ecommerce Item × Bin pairs, the item cost, aggregation over a group
  warehouse, batching by 50, per-row outcome classification, sync stamps and
  the per-batch status log.

Modules:

| module | file | what it holds |
|---|---|---|
| `Common` | common.dfy | Option/Result, Python's falsy-string `or`, left-fold sums, `cint` truncation |
| `Payload` | payload.dfy | storefront order, line item, tax line, shipping line, refund payload |
| `Setting` | setting.dfy | Shopify Setting, vendor account mapping, tax-account mapping |
| `OrderItems` | order_items.dfy | `_get_item_price`, `_get_total_discount`, `get_order_items` |
| `OrderTaxation` | order_taxes.dfy | `get_tax_account_head`, `get_order_taxes`, `update_taxes_with_shipping_lines`, `consolidate_order_taxes` |
| `OrderSync` | order_sync.dfy | `create_sales_order`, `sync_sales_order`, `create_order`, `get_sales_order`, `cancel_order` |
| `Refund` | refund.dfy | `refund` |
| `ShopifyInvoice` | invoice.dfy | `create_sales_invoice`, `set_shipping_account`, `make_payament_entry_against_sales_invoice` |
| `InventoryLevels` | inventory_levels.dfy | `get_inventory_levels`, `get_inventory_levels_of_group_warehouse`, `update_inventory_sync_status` |
| `ShopifyInventory` | shopify_inventory.dfy | `update_inventory_on_shopify`, `upload_inventory_data_to_shopify`, `_log_inventory_update_status` |

The code's loops are `method`s with `while` loops, and each is proved equal
to a recursive specification function. What the source promises is then
proved about that function as lemmas.

Some source objects are updated in place, and these are modelled as mutable
state:

- The Sales Invoice and its item rows are classes (`ShopifyInvoice.SalesInvoice`, `ShopifyInvoice.InvoiceItem`).
- The Ecommerce Item table is a class (`InventoryLevels.EcommerceItems`).
- The inventory rows being pushed are an `array`.

Stored documents are looked up as sequences of records. Anything that
crosses the network or depends on the clock becomes a parameter:

- the current date and time;
- the item-code lookup;
- valuation and incoming rates;
- the outcome of each remote push (an oracle `nat -> PushOutcome`).

Some behaviour of the code is easy to misread; the model follows the code:

- The shipping refund amount (`ecommerce_integrations/shopify/order.py:459`) is `ship.get("amount") or 0 + ship.get("tax_amount") or 0`.
  - Python groups it as `amount or (0 + tax_amount) or 0`: it adds `amount` alone when that is non-zero, and `tax_amount` only when `amount` is zero.
  - The evidently intended sum is `amount + tax_amount` (see Findings).
  - The whole refund (`Refund.RefundDocs`, `Refund.ProcessRefund`) uses the sum as written; `Refund.RefundShippingRows` states what that puts on the return note's shipping rows and how far it falls short of the intended sum.
- A shipping line counts as priced when its `price` is truthy (`order.py:302`). The storefront sends a decimal string, and `"0.00"` is truthy, so a free shipping line still books a charge row of 0 and needs a shipping account (`OrderTaxation.FreeShippingCharged`).
- The tax row of an order line carries the storefront's `price` of the tax line, not a recomputed `qty × price × rate`.
- In a refund, a non-default tax row's total subtracts only the subtotal accumulated by the default-account rows *above* it (`order.py:498-529`). A shipping row placed before the default row therefore does not net the item subtotal (`Refund.ReturnTaxesShippingExample`).

## Model

| member | source | states |
|---|---|---|
| Common.Trunc | ecommerce_integrations/shopify/inventory.py:55 | `cint` truncates toward zero: the result is within 1 of `x` and never further from 0 than `x` |
| OrderItems.NetRate | ecommerce_integrations/shopify/order.py:175-190 | rate × qty equals price × qty less the total discount, and less the line's tax total when taxes are inclusive |
| OrderItems.NetRateExample | ecommerce_integrations/shopify/order.py:175-195 | price 100, discount 10, tax 5: rate 90 exclusive, 85 inclusive |
| OrderItems.ItemPrice | ecommerce_integrations/shopify/order.py:175-190 | the summing loop yields the net rate |
| OrderItems.FirstMissing | ecommerce_integrations/shopify/order.py:145-151 | index of the first line whose product does not exist: all earlier lines exist |
| OrderItems.OrderItemsGating | ecommerce_integrations/shopify/order.py:140-172 | at most one item per line, each built from the line at the same index; a missing product followed by an existing one empties the list; a trailing run of missing products keeps the items built before it |
| OrderItems.ItemsForFields | ecommerce_integrations/shopify/order.py:155-167 | each built item has the line's code, quantity, net rate, delivery date, `uom or "Nos"`, the setting's warehouse and discount × qty = total discount |
| OrderItems.ItemsForStep | ecommerce_integrations/shopify/order.py:145-168 | one loop step appends exactly the item for that line |
| OrderItems.AddLineItem | ecommerce_integrations/shopify/order.py:145-170 | one iteration keeps the loop state: the flag says whether a missing product was met, and the list is the items so far or emptied by a later existing product |
| OrderItems.GatedFinal | ecommerce_integrations/shopify/order.py:140-172 | the state after the last line item is the specified list, and when every product exists it is one item per line with all fields as above |
| OrderItems.OrderItemsForAllExisting | ecommerce_integrations/shopify/order.py:145-170 | when every line item has a product nothing is gated: each line yields its item |
| OrderItems.GetOrderItems | ecommerce_integrations/shopify/order.py:140-172 | the loop yields the specified items; when every product exists, one item per line with all fields as above |
| OrderTaxation.TaxAccountHead | ecommerce_integrations/shopify/order.py:271-284 | mapped account first, else the default for the charge type; an error naming the title iff neither is set; never an empty head |
| OrderTaxation.MapRowsSpec | ecommerce_integrations/shopify/order.py:212-226 | building rows from tax lines succeeds iff every line resolves, giving one row per line in order; otherwise the first failing line's error |
| OrderTaxation.MapRowsStep | ecommerce_integrations/shopify/order.py:212-226 | one loop step appends that line's row or stops at its error |
| OrderTaxation.MapRowsErrPrefix | ecommerce_integrations/shopify/order.py:212-226 | an error raised on a prefix is the result for the whole list |
| OrderTaxation.MapRowsTotal | ecommerce_integrations/shopify/order.py:212-226 | the rows carry the tax lines' prices in total, each with a resolved account |
| OrderTaxation.LastVendorWins | ecommerce_integrations/shopify/order.py:203-211 | the vendor mapping in force is the one of the last line item with a mapping; none iff no line has one |
| OrderTaxation.ProductTaxRowsStep | ecommerce_integrations/shopify/order.py:203-226 | one line item appends its tax rows, costed to the vendor center seen so far or the setting's |
| OrderTaxation.ProductTaxRowsErrPrefix | ecommerce_integrations/shopify/order.py:203-226 | an unresolvable tax line stops the whole product-tax loop |
| OrderTaxation.ProductTaxRowsTotal | ecommerce_integrations/shopify/order.py:203-226 | the product rows sum to the line items' tax prices and all have resolved accounts |
| OrderTaxation.AppendLineItemRows | ecommerce_integrations/shopify/order.py:212-226 | one line item's tax rows are appended, or the first account error is returned |
| OrderTaxation.CollectProductTaxes | ecommerce_integrations/shopify/order.py:198-226 | the line-item loop yields the specified product rows or their first error, with the shipping account and cost center of the last mapped vendor |
| OrderTaxation.LineItemRows | ecommerce_integrations/shopify/order.py:212-226 | one row per tax line with its account head, price, cost center and item-wise detail `{code: [rate×100, price]}` |
| OrderTaxation.ShippingRowsStep | ecommerce_integrations/shopify/order.py:300-352 | one shipping line extends the rows and items built so far |
| OrderTaxation.ShippingRowsErrPrefix | ecommerce_integrations/shopify/order.py:300-352 | an unresolvable shipping account stops the shipping loop |
| OrderTaxation.PricedPartTotals | ecommerce_integrations/shopify/order.py:301-333 | a priced shipping line's net charge goes to a tax row, or to a shipping item when shipping is an item, never both |
| OrderTaxation.ShippingLineStepShape | ecommerce_integrations/shopify/order.py:300-352 | a shipping line appends its priced rows, then its tax rows, and its priced items, after what was there |
| OrderTaxation.ShippingLineStepTotals | ecommerce_integrations/shopify/order.py:300-352 | one shipping line keeps earlier rows and items; its new rows sum to its charge (unless shipping is an item) plus its taxes |
| OrderTaxation.NewRowsTotals | ecommerce_integrations/shopify/order.py:300-352 | the appended rows are resolved and sum to the charge (unless shipping is an item) plus the taxes; the appended items sum to the charge when shipping is an item and are none otherwise |
| OrderTaxation.ShippingRowsKeep | ecommerce_integrations/shopify/order.py:297-352 | shipping lines only append rows and items; items are unchanged unless shipping is an item |
| OrderTaxation.ShippingRowsTotals | ecommerce_integrations/shopify/order.py:297-352 | the appended rows sum to the net shipping charges (when not an item) plus the shipping taxes; the appended items sum to the charges when shipping is an item |
| OrderTaxation.ShippingChargeExample | ecommerce_integrations/shopify/order.py:301-333 | price 20 with a discount of 5 gives one row of 15 and no item |
| OrderTaxation.FreeShippingCharged | ecommerce_integrations/shopify/order.py:302-333 | a shipping line with a present zero price (`"0.00"` is truthy) still books a charge row of 0, and fails iff no shipping account resolves |
| OrderTaxation.HeadsSpec | ecommerce_integrations/shopify/order.py:247-268 | consolidation keys are distinct, are exactly the rows' heads, and come in first-seen order, each keyed by its first row |
| OrderTaxation.HeadsMembers | ecommerce_integrations/shopify/order.py:247-268 | the dictionary keys are distinct and are exactly the rows' account heads |
| OrderTaxation.HeadsFirst | ecommerce_integrations/shopify/order.py:250-261 | each key's entry is made from the first row with that head (`setdefault`) |
| OrderTaxation.HeadsOrder | ecommerce_integrations/shopify/order.py:247-268 | the keys come in the order their heads first appear among the rows |
| OrderTaxation.HeadsOrderStep | ecommerce_integrations/shopify/order.py:250-261 | one more row keeps every pair of keys in first-seen order |
| OrderTaxation.SeenBeforeSnoc | ecommerce_integrations/shopify/order.py:250-261 | a row appended for a head already seen keeps that head after the heads before it |
| OrderTaxation.SeenBeforeLast | ecommerce_integrations/shopify/order.py:250-261 | a head first met in the last row comes after every earlier head |
| OrderTaxation.HeadTotalAbsent | ecommerce_integrations/shopify/order.py:247-268 | a head with no rows totals 0 |
| OrderTaxation.TotalOverAddRow | ecommerce_integrations/shopify/order.py:262 | adding a row raises the total of its own head only |
| OrderTaxation.SumConsolidatedRows | ecommerce_integrations/shopify/order.py:247-268 | the consolidated rows of a set of heads sum to those heads' totals |
| OrderTaxation.HeadsTotal | ecommerce_integrations/shopify/order.py:247-268 | the per-head totals add up to the sum of all rows |
| OrderTaxation.ConsolidatedTotal | ecommerce_integrations/shopify/order.py:247-268 | consolidation preserves the total tax amount |
| OrderTaxation.HeadDetailKeys | ecommerce_integrations/shopify/order.py:263-264 | a consolidated row's item-wise detail has exactly the keys of its head's rows' details |
| OrderTaxation.HeadDetailLastWins | ecommerce_integrations/shopify/order.py:263-264 | on a key clash, the detail of the last row of that head wins (`dict.update`) |
| OrderTaxation.ConsolidatedResolved | ecommerce_integrations/shopify/order.py:247-268 | consolidation keeps every account head resolved |
| OrderTaxation.OrderTaxesTotal | ecommerce_integrations/shopify/order.py:198-244 | the order's tax rows sum to the line-item taxes plus the net shipping charges (unless shipping is an item) plus the shipping taxes, with or without consolidation |
| OrderTaxation.UnconsolidatedTotal | ecommerce_integrations/shopify/order.py:198-234 | before consolidation the rows sum to the line-item taxes, the shipping taxes and the net shipping charges unless shipping is an item |
| OrderTaxation.OrderTaxesResolved | ecommerce_integrations/shopify/order.py:198-244 | every tax row of the order has a non-empty account head |
| OrderTaxation.OrderTaxesKeepItems | ecommerce_integrations/shopify/order.py:198-244 | the order items are only appended to |
| OrderTaxation.ConsolidatedRowStep | ecommerce_integrations/shopify/order.py:250-264 | one more row either starts its head's entry (`setdefault`) or adds its amount and detail to it |
| OrderTaxation.HeadDetailAbsent | ecommerce_integrations/shopify/order.py:250-264 | a head with no rows has an empty detail |
| OrderTaxation.AbsorbStep | ecommerce_integrations/shopify/order.py:250-264 | the dictionary loop's state after one more row is the specification's state |
| OrderTaxation.AbsorbRow | ecommerce_integrations/shopify/order.py:250-264 | one row adds its head as a new key or adds its amount and detail to that key's entry |
| OrderTaxation.ConsolidationValues | ecommerce_integrations/shopify/order.py:268 | the dictionary's values, in key order, are the consolidated rows |
| OrderTaxation.ConsolidateOrderTaxes | ecommerce_integrations/shopify/order.py:247-268 | the dictionary loop yields the consolidated rows |
| OrderTaxation.ShippingLineTaxRows | ecommerce_integrations/shopify/order.py:335-352 | one row per shipping tax line, on `vsaccount` or else the sales-tax account (failing only then), with the tax price, `vcenter or cost_center`, and `{shipping_item: [rate×100, price]}` iff shipping is an item, else `{}` |
| OrderTaxation.AppendShippingTaxRows | ecommerce_integrations/shopify/order.py:335-352 | a shipping line's tax rows, as ShippingLineTaxRows states them, are appended, or the first account error is returned |
| OrderTaxation.AddShippingLine | ecommerce_integrations/shopify/order.py:300-352 | one iteration of the shipping loop computes the specified step |
| OrderTaxation.UpdateTaxesWithShippingLines | ecommerce_integrations/shopify/order.py:297-352 | the shipping loop computes the specified rows and items |
| OrderTaxation.GetOrderTaxes | ecommerce_integrations/shopify/order.py:198-244 | the loop over line items, then shipping, then optional consolidation, computes the specified taxes |
| OrderSync.FindSalesOrder | ecommerce_integrations/shopify/order.py:355-359 | none iff no Sales Order carries the order id; a found order carries it |
| OrderSync.CountForAppend | ecommerce_integrations/shopify/order.py:83 | storing one Sales Order raises only its own id's count |
| OrderSync.CountForNone | ecommerce_integrations/shopify/order.py:83 | a failed lookup means no Sales Order for the id |
| OrderSync.CreatedSalesOrder | ecommerce_integrations/shopify/order.py:77-137 | an existing order is returned iff one is stored; no items iff none stored and none built; a created order has the id, number, naming series, date, items as built, resolved taxes, Draft iff a company is given, and is submitted |
| OrderSync.SyncStores | ecommerce_integrations/shopify/order.py:33-60 | a sync leaves the store unchanged or appends one Sales Order for an order id not yet stored |
| OrderSync.SyncIdempotent | ecommerce_integrations/shopify/order.py:33-60 | after a sync at most one Sales Order has the id and other ids are untouched; a second sync then changes nothing and logs Invalid |
| OrderSync.SyncCascade | ecommerce_integrations/shopify/order.py:63-74 | an invoice is made iff an order was stored and it is paid; a delivery note iff stored and fulfilled; a stored order logs Success |
| OrderSync.CancelOrder | ecommerce_integrations/shopify/order.py:362-403 | no Sales Order: nothing changes, Invalid; otherwise invoice and delivery notes get the status, and the Sales Order is cancelled iff no invoice, no delivery note and submitted, else flagged |
| Refund.ShippingRefundCounterexample | ecommerce_integrations/shopify/order.py:457-459 | adjustment (Shipping refund, 5, 1): the code as written refunds 5, the corrected sum 6 |
| Refund.ShippingRefundShortfall | ecommerce_integrations/shopify/order.py:457-459 | the corrected shipping refund exceeds the as-written one by exactly the taxes of adjustments with a non-zero amount |
| Refund.ShippingRefundSplits | ecommerce_integrations/shopify/order.py:457-459 | the corrected shipping refund is the shipping adjustments' amounts plus their taxes |
| Refund.ShippingRefundAmount | ecommerce_integrations/shopify/order.py:453-459 | the loop yields the shipping refund as the code sums it: per shipping-refund adjustment, `amount` when non-zero, else `tax_amount` |
| Refund.CollectRefundItems | ecommerce_integrations/shopify/order.py:461-473 | one refund item per refund line, looked up by product and variant; amount + tax = the line's subtotal |
| Refund.RefundedLinesSpec | ecommerce_integrations/shopify/order.py:481-496 | the kept delivery-note lines are exactly those whose item was refunded, in order; all lines are kept when all were refunded |
| Refund.ReturnItemsReverse | ecommerce_integrations/shopify/order.py:481-496 | each return line negated gives the refunded line back; amounts and quantities sum to the negation of the refunded lines' |
| Refund.NegatedSums | ecommerce_integrations/shopify/order.py:484-495 | negating every line negates the sums of amount and qty |
| Refund.BuildReturnItems | ecommerce_integrations/shopify/order.py:481-496 | the loop yields the specified return lines |
| Refund.ReturnTaxes | ecommerce_integrations/shopify/order.py:498-529 | one return tax row per original row |
| Refund.ReturnTaxesAt | ecommerce_integrations/shopify/order.py:498-529 | row k is rewritten with the subtotal accumulated through row k |
| Refund.DefaultRowsStep | ecommerce_integrations/shopify/order.py:500 | a row counts as default iff its head is the default sales-tax account |
| Refund.ReturnTaxesOrder | ecommerce_integrations/shopify/order.py:498-529 | a default row gets −(refunded tax × conversion rate) and total −(subtotal so far + refunded gross); any other row gets the shipping refund and total shipping refund − subtotal so far |
| Refund.SubtotStep | ecommerce_integrations/shopify/order.py:503-505 | each default row adds the refunded gross to the running subtotal |
| Refund.ReturnTaxesShippingExample | ecommerce_integrations/shopify/order.py:498-529 | the shipping row's total nets the item subtotal only when the default row precedes it |
| Refund.AddRefundedLines | ecommerce_integrations/shopify/order.py:502-505 | the inner loop sums the refunded tax and adds the refunded gross to the subtotal |
| Refund.BuildReturnTaxes | ecommerce_integrations/shopify/order.py:498-529 | the loop yields the specified return tax rows |
| Refund.FindDeliveryNote | ecommerce_integrations/shopify/order.py:475 | none iff no non-return delivery note has the order's id and number |
| Refund.ReturnNoteShape | ecommerce_integrations/shopify/order.py:533-543 | the return note is a Draft return against the delivery note, with the return series, today's date, the order's id and number, one tax row per original and only refunded, negated lines |
| Refund.ReturnItemsFrom | ecommerce_integrations/shopify/order.py:481-496 | every return line is the negation of an original line whose item was refunded |
| Refund.RefundIsReturn | ecommerce_integrations/shopify/order.py:440-568 | no Sales Order iff none has the refund's order id; a refund yields a Draft return against a non-return delivery note of the order, containing only refunded items, a credit note against it and a payment referenced "<number> Refund" |
| Refund.ProcessRefund | ecommerce_integrations/shopify/order.py:440-568 | the imperative refund computes the specified documents |
| Refund.RefundShippingRows | ecommerce_integrations/shopify/order.py:457-527 | every non-default return tax row carries the as-written shipping refund, which is the intended sum minus the taxes the expression drops |
| ShopifyInvoice.InvoiceItem.constructor | ecommerce_integrations/shopify/invoice.py:55 | an invoice row with its item code, cost center and income account |
| ShopifyInvoice.SalesInvoice.constructor | ecommerce_integrations/shopify/invoice.py:55 | the invoice made from the Sales Order, before the integration's fields are set |
| ShopifyInvoice.InvoiceVendorIsLast | ecommerce_integrations/shopify/invoice.py:83-86 | whatever line items precede it, the mapping used is the last line item's vendor row, else the row with no vendor, else none |
| ShopifyInvoice.ShippingAccountsFromLastItem | ecommerce_integrations/shopify/invoice.py:78-95 | with no default mapping, an unmapped last item resets the shipping account and cost center to the setting's, whatever earlier items map to |
| ShopifyInvoice.SetShippingAccount | ecommerce_integrations/shopify/invoice.py:78-95 | only rows of the shipping item get the vendor's cost center and income account; nothing happens for an order without line items |
| ShopifyInvoice.SetVatEmirate | ecommerce_integrations/shopify/invoice.py:66-68 | the setting's emirate is set iff some line item has tax lines and the setting has one; nothing else changes |
| ShopifyInvoice.BankAccountKept | ecommerce_integrations/shopify/invoice.py:107-112 | without a matching method with an account, the setting's cash account stays |
| ShopifyInvoice.BankAccountIsLastSupplier | ecommerce_integrations/shopify/invoice.py:107-112 | the bank account is the account of the last matching method that has one |
| ShopifyInvoice.ChooseBankAccount | ecommerce_integrations/shopify/invoice.py:107-112 | the loop changes only the setting's cash account, to the specified one |
| ShopifyInvoice.NoGatewayKeepsAccount | ecommerce_integrations/shopify/invoice.py:107 | an order without payment gateways keeps the setting's account |
| ShopifyInvoice.SetOrderFields | ecommerce_integrations/shopify/invoice.py:56-61 | the invoice gets the order id and number, posting and due date, set-posting-time and series; nothing else changes |
| ShopifyInvoice.FinishInvoice | ecommerce_integrations/shopify/invoice.py:65-76 | after submission the VAT emirate is set as above; a payment entry dated at posting, paid into the chosen bank account, exists iff the grand total is positive, and only then does the setting's cash account change, every other field of the setting being returned unchanged; a non-empty note adds the comment `Order Note: <note>`; no other field changes |
| ShopifyInvoice.CreateSalesInvoice | ecommerce_integrations/shopify/invoice.py:33-76 | invoiced iff not yet invoiced, submitted, unbilled and enabled; then all fields, the shipping rows' accounts, the VAT emirate and the note comment are set; a payment entry, dated at posting and paid into the chosen bank account, exists iff the grand total is positive; the returned setting differs from the given one at most in its cash account |
| InventoryLevels.MatchBinsSpec | ecommerce_integrations/controllers/inventory.py:21-33 | an item's rows are exactly its selected bins |
| InventoryLevels.JoinSpec | ecommerce_integrations/controllers/inventory.py:21-33 | a level is returned iff its item and bin match on item code, the bin is in a mapped warehouse, changed after the last sync, for this integration |
| InventoryLevels.CostRule | ecommerce_integrations/controllers/inventory.py:40-52 | cost is 0 iff there is no valuation rate; else the incoming rate, falling back to the valuation rate |
| InventoryLevels.AssignCosts | ecommerce_integrations/controllers/inventory.py:40-52 | each row gets its cost and nothing else changes |
| InventoryLevels.GetInventoryLevels | ecommerce_integrations/controllers/inventory.py:11-54 | the result is the selected join with costs assigned |
| InventoryLevels.CodesSpec | ecommerce_integrations/controllers/inventory.py:80-81 | the groups are the distinct item codes of the joined pairs |
| InventoryLevels.MaxModifiedSpec | ecommerce_integrations/controllers/inventory.py:73 | `max(bin.modified)` is the largest modification time in the group |
| InventoryLevels.MaxSyncedSpec | ecommerce_integrations/controllers/inventory.py:74 | `max(inventory_synced_on)` ignores NULLs and is NULL iff all are |
| InventoryLevels.InGroupSpec | ecommerce_integrations/controllers/inventory.py:80-81 | a group holds exactly the pairs of its item code |
| InventoryLevels.GroupRowsSpec | ecommerce_integrations/controllers/inventory.py:66-87 | a row is returned iff it is the row of a non-empty group passing the HAVING filter |
| InventoryLevels.StaleMeans | ecommerce_integrations/controllers/inventory.py:82-83 | a group passes iff some pair was synced and some bin changed after every sync |
| InventoryLevels.GroupRowsAggregate | ecommerce_integrations/controllers/inventory.py:66-87 | every row carries its group's summed actual and reserved quantities and its latest sync |
| InventoryLevels.SetGroupWarehouse | ecommerce_integrations/controllers/inventory.py:90-91 | every row is relabelled with the group warehouse, nothing else changes |
| InventoryLevels.GetInventoryLevelsOfGroupWarehouse | ecommerce_integrations/controllers/inventory.py:57-93 | the grouped rows over the warehouse and its descendants, relabelled with the group warehouse |
| InventoryLevels.Stamped | ecommerce_integrations/controllers/inventory.py:96-104 | only the named item's sync time changes, to the given time |
| InventoryLevels.StampedNotReselected | ecommerce_integrations/controllers/inventory.py:15-17 | once stamped at or after a bin's modification, the item is not selected again for that bin |
| InventoryLevels.EcommerceItems.constructor | ecommerce_integrations/controllers/inventory.py:96-104 | the Ecommerce Item table holds the given rows |
| InventoryLevels.EcommerceItems.UpdateInventorySyncStatus | ecommerce_integrations/controllers/inventory.py:96-104 | stamps the item with the given time, or now when none is given |
| ShopifyInventory.BatchesPartition | ecommerce_integrations/shopify/inventory.py:43 | the batches concatenate to the input and each holds 1 to n rows |
| ShopifyInventory.BatchesFront | ecommerce_integrations/shopify/inventory.py:43 | the first batch is the first n rows |
| ShopifyInventory.BatchesSnoc | ecommerce_integrations/shopify/inventory.py:43 | batches of 50 grow by one when a prefix grows by one batch |
| ShopifyInventory.BatchesPrefix | ecommerce_integrations/shopify/inventory.py:43 | a prefix past the first batch starts with that batch |
| ShopifyInventory.AvailableExample | ecommerce_integrations/shopify/inventory.py:55 | actual 7.9, reserved 2.5 gives 5; actual −1.5 gives −1 |
| ShopifyInventory.AfterPushRules | ecommerce_integrations/shopify/inventory.py:45-68 | the row gets the mapped location; Success iff pushed, Not Found iff the resource is missing, Failed with the error's reason otherwise |
| ShopifyInventory.PushOne | ecommerce_integrations/shopify/inventory.py:45-68 | one row is updated, the item is stamped unless the push failed, and a cost update follows a successful push with positive cost |
| ShopifyInventory.SyncedUpToRules | ecommerce_integrations/shopify/inventory.py:58-68 | pushes change only sync times, each to the run's time, and never for items whose pushes all failed |
| ShopifyInventory.PushesUpToRules | ecommerce_integrations/shopify/inventory.py:48-57 | the pushes sent are exactly those of rows whose push succeeded |
| ShopifyInventory.CostUpdatesUpToRules | ecommerce_integrations/shopify/inventory.py:60-61 | cost updates are sent exactly for successful rows with positive cost |
| ShopifyInventory.SuccessCountBound | ecommerce_integrations/shopify/inventory.py:108 | successes are at most the batch size, equal to it iff all succeeded, 0 iff none did |
| ShopifyInventory.BatchStatusRules | ecommerce_integrations/shopify/inventory.py:108-117 | Failed iff no row succeeded, Success iff all did, Partial Success otherwise |
| ShopifyInventory.ShareFacts | ecommerce_integrations/shopify/inventory.py:110-115 | the share of successes is 0 iff none succeeded and below 1 iff some failed |
| ShopifyInventory.BatchLogsSnoc | ecommerce_integrations/shopify/inventory.py:43-72 | each finished batch adds its own status log |
| ShopifyInventory.PushedUpTo | ecommerce_integrations/shopify/inventory.py:43-72 | the rows after pushing a prefix keep their count |
| ShopifyInventory.PushedUpToStep | ecommerce_integrations/shopify/inventory.py:44-68 | pushing one more row updates only that row |
| ShopifyInventory.UpToStep | ecommerce_integrations/shopify/inventory.py:44-68 | one more row stamps its item when its outcome stamps, adds its push when pushed, and adds its cost update when pushed with a positive cost |
| ShopifyInventory.PushNext | ecommerce_integrations/shopify/inventory.py:44-68 | one iteration of the inner loop advances the rows, the stamps, the pushes and the cost updates by one row |
| ShopifyInventory.PushBatch | ecommerce_integrations/shopify/inventory.py:44-70 | a batch's loop advances the rows, the stamps, the pushes and the cost updates by that batch |
| ShopifyInventory.UploadInventory | ecommerce_integrations/shopify/inventory.py:39-72 | after the run every row has its outcome, items are stamped as specified, the pushes and cost updates are those of successful rows, and one status log is written per batch |
| ShopifyInventory.FinishedRowsKept | ecommerce_integrations/shopify/inventory.py:43-72 | rows already pushed are not touched again |
| ShopifyInventory.UpdateInventoryOnShopify | ecommerce_integrations/shopify/inventory.py:19-36 | nothing happens unless enabled, stock sync is on and due; otherwise every selected, costed level is pushed with its outcome, the pushes, cost updates and Ecommerce Item stamps are those of its successful rows, and each batch is logged |
| ShopifyInventory.JoinWarehouses | ecommerce_integrations/shopify/inventory.py:32-33 | every level is in a mapped warehouse, so its location lookup succeeds |

## Left out

- HTTP and remote calls are parameters, not modelled: `Variant.find`, `InventoryLevel.set`, the cost `PUT` of `update_shopify_product_cost`, `fetch_old_orders` / `sync_old_orders`. Each push outcome is an oracle argument.
- Customer sync (`ShopifyCustomer`), `create_items_if_not_exist` and `get_item_code` belong to other modules and are not part of this model. The item code of a line item is a function parameter.
- The frappe document lifecycle is outside the model. This covers `save`, `submit`, `insert`, `copy_doc`, `commit` and `rollback`, plus `make_sales_invoice` and `get_payment_entry`. Their visible effects are modelled as values: stored records, a returned credit note, a returned payment entry.
- `get_incoming_rate` and the valuation-rate lookup are function parameters.
- Log message text, `json.dumps` of item-wise details, `:.2f` descriptions, `set_user`, request flags and `posting_time` are not modelled.
- `now()`, `getdate()` and `nowdate()` are parameters. `MODULE_NAME` is the `integration` parameter.
- The concurrency of the read-then-create duplicate guard is not modelled; each sync runs alone.
- The order and refund rows are returned as new sequences. The source builds them in Python lists and dicts updated in place.
- The setting's `cash_bank_account` update is returned as a new setting value.
- SQL row order is not modelled. The join yields items in table order, then their bins in table order.
- For a grouped row, the non-aggregated columns (`ecom_item`, `integration_item_code`, `variant_id`) are taken from the group's first pair. MySQL leaves the choice open.
- Payload amounts are numbers, not the storefront's decimal strings. A line item's quantity is positive, because the source divides by it without a guard. A shipping line's truthiness test on `price` is kept as a separate flag (`priced`).
- Absent payload lists and amounts are read as empty and 0. The source iterates `tax_lines` (`order.py:187`, `212`, `335`), `order_adjustments` (`order.py:457`), `refund_line_items` (`order.py:461`) and `line_items` (`invoice.py:41`, `82`) without a default and raises `TypeError` when one is absent. `order.py:459` also raises on an absent `tax_amount` when `amount` is falsy (`0 + None`). The model does not capture these raises.
- InventoryLevels.GetInventoryLevels: an empty warehouse mapping is not modelled as an error. With no mapped warehouse, `controllers/inventory.py:27` renders the filter as `bin.warehouse in ()`, which the database rejects, so the source raises. The model selects no rows instead. The group-warehouse query is unaffected, because its tuple always holds the warehouse itself.
- ShopifyInventory.UpdateInventoryOnShopify: for the same reason, with the gate open and no mapped warehouse, the source raises. The model describes a run with no pushes, cost updates, stamps or logs.
- Whether a follow-up document (invoice or delivery note) raises is a boolean parameter of `OrderSync.SyncSalesOrder`.
- Refund.RefundIsReturn: states which items appear on the return note and how its header is set, not the values of the credit note's and payment's amounts, which ERPNext computes.
- ShopifyInvoice.CreateSalesInvoice: `cost_center` (`invoice.py:51`) is computed but never used, because `set_cost_center` is commented out. It is not modelled.

## Findings

| source | as written | input that shows it | evidently intended | confidence | as-written member | corrected member |
|---|---|---|---|---|---|---|
| ecommerce_integrations/shopify/order.py:459 | `ship.get("amount") or 0 + ship.get("tax_amount") or 0` parses as `amount or (0 + tax_amount) or 0`, so a shipping refund's tax is added only when its amount is zero | one adjustment with reason "Shipping refund", amount 5.0, tax_amount 1.0: 5.0 is refunded instead of 6.0 | the amount plus the tax of every shipping-refund adjustment, each defaulting to 0 | not executed | Refund.ShippingRefundAsWritten, Refund.ShippingRefundCounterexample, Refund.RefundShippingRows | Refund.ShippingRefund, Refund.ShippingRefundShortfall |
