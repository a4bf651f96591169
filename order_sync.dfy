/** The decisions around Sales Order creation in shopify/order.py:
    `create_sales_order`, the idempotent guard of `sync_sales_order`, the
    invoice / delivery-note cascade of `create_order` and the cancel-or-flag
    rule of `cancel_order`. The Sales Order table is a sequence of records. */
module OrderSync {
  import opened Common
  import opened Payload
  import opened Setting
  import opened OrderItems
  import opened OrderTaxation

  /** The status of the integration log entry a call writes. */
  datatype LogStatus = Success | Error | Invalid

  /** A Sales Order as the integration creates it (`docstatus` 1 once
      submitted, 2 once cancelled). */
  datatype SalesOrder = SalesOrder(
    orderId: string,
    orderNumber: string,
    namingSeries: string,
    customer: string,
    transactionDate: Date,
    deliveryDate: Date,
    company: string,
    status: string,
    items: seq<OrderItem>,
    taxes: seq<TaxRow>,
    docstatus: int,
    comments: seq<string>)

  /** `getdate(created_at) or nowdate()`: the order's creation date, else today. */
  function CreatedDate(order: Order, today: Date): Date
  {
    if order.createdAt.Some? then order.createdAt.value else today
  }

  /** The customer of the Sales Order: the default customer for an order
      without a customer id, else the Customer linked to that id ("" when
      no Customer is linked). */
  function CustomerFor(s: ShopifySetting, order: Order, customers: map<string, string>): string
  {
    if order.customerId == "" then s.defaultCustomer
    else if order.customerId in customers then customers[order.customerId]
    else ""
  }

  /** The Sales Order stored for an order id, if any. */
  function FindSalesOrder(db: seq<SalesOrder>, orderId: string): (r: Option<SalesOrder>)
    ensures r.None? <==> forall j :: 0 <= j < |db| ==> db[j].orderId != orderId
    ensures r.Some? ==> r.value in db && r.value.orderId == orderId
  {
    if db == [] then None
    else if db[0].orderId == orderId then Some(db[0])
    else FindSalesOrder(db[1..], orderId)
  }

  /** The number of Sales Orders stored for an order id. */
  function CountFor(db: seq<SalesOrder>, orderId: string): nat
  {
    if db == [] then 0
    else CountFor(db[..|db| - 1], orderId) + (if db[|db| - 1].orderId == orderId then 1 else 0)
  }

  lemma CountForAppend(db: seq<SalesOrder>, so: SalesOrder, orderId: string)
    ensures CountFor(db + [so], orderId) == CountFor(db, orderId) + (if so.orderId == orderId then 1 else 0)
  {
    assert (db + [so])[..|db|] == db;
  }

  lemma {:induction false} CountForNone(db: seq<SalesOrder>, orderId: string)
    requires FindSalesOrder(db, orderId).None?
    ensures CountFor(db, orderId) == 0
    decreases |db|
  {
    if db != [] {
      var n := |db| - 1;
      assert FindSalesOrder(db[..n], orderId).None?;
      CountForNone(db[..n], orderId);
    }
  }

  datatype CreateOutcome =
    | Existing(so: SalesOrder)   // a Sales Order with the order id exists
    | NoItems                    // no item could be built: an Error log, rolled back
    | Failed(error: TaxError)    // get_order_taxes raised
    | Created(so: SalesOrder)

  /** `create_sales_order`. `company`, when non-empty, overrides the
      setting's company and leaves the order in status "Draft". */
  function CreateSalesOrder(s: ShopifySetting, order: Order, db: seq<SalesOrder>,
                            customers: map<string, string>, itemCode: LineItem -> string,
                            today: Date, company: string): CreateOutcome
  {
    match FindSalesOrder(db, order.id)
    case Some(so) => Existing(so)
    case None =>
      var date := CreatedDate(order, today);
      var items := OrderItemsFor(order.lineItems, s, itemCode, date, order.taxesIncluded);
      if items == [] then NoItems
      else
        match OrderTaxes(s, order, items, itemCode, today)
        case Err(e) => Failed(e)
        case Ok(b) =>
          Created(SalesOrder(
            order.id, order.name, Or(s.salesOrderSeries, "SO-Shopify-"),
            CustomerFor(s, order, customers), date, date,
            Or(company, s.company), if company != "" then "Draft" else "",
            b.items, b.taxes, 1,
            if order.note != "" then ["Order Note: " + order.note] else []))
  }

  /** What a created Sales Order holds: the order's id and number, a
      non-empty naming series, the creation date (else today) as both dates,
      the built product items followed by any shipping item, tax rows with
      resolved accounts, and "Draft" exactly when a company was given. */
  lemma CreatedSalesOrder(s: ShopifySetting, order: Order, db: seq<SalesOrder>,
                          customers: map<string, string>, itemCode: LineItem -> string,
                          today: Date, company: string)
    ensures var r := CreateSalesOrder(s, order, db, customers, itemCode, today, company);
            && (r.Existing? <==> exists j :: 0 <= j < |db| && db[j].orderId == order.id)
            && (r.NoItems? <==> FindSalesOrder(db, order.id).None?
                                && OrderItemsFor(order.lineItems, s, itemCode, CreatedDate(order, today),
                                                 order.taxesIncluded) == [])
            && (r.Created? ==>
                  var so := r.so;
                  var built := OrderItemsFor(order.lineItems, s, itemCode, CreatedDate(order, today),
                                             order.taxesIncluded);
                  && so.orderId == order.id && so.orderNumber == order.name
                  && so.namingSeries != ""
                  && (s.salesOrderSeries != "" ==> so.namingSeries == s.salesOrderSeries)
                  && so.transactionDate == CreatedDate(order, today)
                  && so.deliveryDate == so.transactionDate
                  && built != [] && |built| <= |so.items| && so.items[..|built|] == built
                  && AccountsResolved(so.taxes)
                  && (so.status == "Draft" <==> company != "")
                  && so.company == (if company != "" then company else s.company)
                  && so.docstatus == 1)
  {
    var r := CreateSalesOrder(s, order, db, customers, itemCode, today, company);
    if FindSalesOrder(db, order.id).None? {
      var date := CreatedDate(order, today);
      var items := OrderItemsFor(order.lineItems, s, itemCode, date, order.taxesIncluded);
      if items != [] {
        OrderTaxesResolved(s, order, items, itemCode, today);
        OrderTaxesKeepItems(s, order, items, itemCode, today);
      }
    }
  }

  /** The documents `create_order` goes on to create for a Sales Order. */
  datatype FollowUp = MakeSalesInvoice | MakeDeliveryNote

  /** `create_order`'s cascade: an invoice for a paid order, a delivery
      note for an order with fulfillments. */
  function FollowUps(order: Order): seq<FollowUp>
  {
    (if order.financialStatus == "paid" then [MakeSalesInvoice] else [])
    + (if order.fulfillmentCount > 0 then [MakeDeliveryNote] else [])
  }

  datatype SyncResult = SyncResult(db: seq<SalesOrder>, logs: seq<LogStatus>, followUps: seq<FollowUp>)

  /** `sync_sales_order` (after customer and item sync): nothing happens for
      an order already stored; otherwise `create_order` runs and everything
      it did is rolled back when it raises. `followUpFails` says whether one
      of the follow-up documents raised. When no item could be built,
      `create_sales_order` logs an Error itself and `sync_sales_order` then
      logs Success. */
  function SyncSalesOrder(db: seq<SalesOrder>, order: Order, s: ShopifySetting,
                          customers: map<string, string>, itemCode: LineItem -> string,
                          today: Date, followUpFails: bool): SyncResult
  {
    if FindSalesOrder(db, order.id).Some? then SyncResult(db, [Invalid], [])
    else
      match CreateSalesOrder(s, order, db, customers, itemCode, today, "")
      case Existing(_) => SyncResult(db, [Success], FollowUps(order))
      case NoItems => SyncResult(db, [Error, Success], [])
      case Failed(_) => SyncResult(db, [Error], [])
      case Created(so) =>
        if followUpFails && FollowUps(order) != [] then SyncResult(db, [Error], [])
        else SyncResult(db + [so], [Success], FollowUps(order))
  }

  /** A sync stores at most one new Sales Order, for the synced order id,
      and only when none was stored for it. */
  lemma SyncStores(db: seq<SalesOrder>, order: Order, s: ShopifySetting,
                   customers: map<string, string>, itemCode: LineItem -> string,
                   today: Date, followUpFails: bool)
    ensures var r := SyncSalesOrder(db, order, s, customers, itemCode, today, followUpFails);
            || r.db == db
            || (&& FindSalesOrder(db, order.id).None?
                && |r.db| == |db| + 1 && r.db[..|db|] == db && r.db[|db|].orderId == order.id)
  {
    if FindSalesOrder(db, order.id).None? {
      CreatedSalesOrder(s, order, db, customers, itemCode, today, "");
      match CreateSalesOrder(s, order, db, customers, itemCode, today, "")
      case Existing(_) =>
      case NoItems =>
      case Failed(_) =>
      case Created(so) =>
        assert (db + [so])[..|db|] == db;
    }
  }

  /** The guard makes sync idempotent: once an order's Sales Order is
      stored, syncing the order again logs Invalid and changes nothing; no
      order id ever gets a second Sales Order, and other order ids are
      untouched. */
  lemma SyncIdempotent(db: seq<SalesOrder>, order: Order, s: ShopifySetting,
                       customers: map<string, string>, itemCode: LineItem -> string,
                       today: Date, fails1: bool, fails2: bool)
    requires CountFor(db, order.id) <= 1
    ensures var r1 := SyncSalesOrder(db, order, s, customers, itemCode, today, fails1);
            var r2 := SyncSalesOrder(r1.db, order, s, customers, itemCode, today, fails2);
            && CountFor(r1.db, order.id) <= 1
            && (forall id :: id != order.id ==> CountFor(r1.db, id) == CountFor(db, id))
            && (CountFor(r1.db, order.id) == 1 ==> r2 == SyncResult(r1.db, [Invalid], []))
            && (r1.db != db ==> CountFor(r1.db, order.id) == 1)
  {
    var r1 := SyncSalesOrder(db, order, s, customers, itemCode, today, fails1);
    SyncStores(db, order, s, customers, itemCode, today, fails1);
    if r1.db != db {
      CountForNone(db, order.id);
      var so := r1.db[|db|];
      assert r1.db == db + [so];
      forall id ensures CountFor(r1.db, id) == CountFor(db, id) + (if so.orderId == id then 1 else 0) {
        CountForAppend(db, so, id);
      }
    }
    if CountFor(r1.db, order.id) == 1 && FindSalesOrder(r1.db, order.id).None? {
      CountForNone(r1.db, order.id);
    }
  }

  /** The cascade: an invoice is requested exactly when a new Sales Order was
      stored for a paid order, a delivery note exactly when one was stored
      for an order with fulfillments. */
  lemma SyncCascade(db: seq<SalesOrder>, order: Order, s: ShopifySetting,
                    customers: map<string, string>, itemCode: LineItem -> string,
                    today: Date, followUpFails: bool)
    ensures var r := SyncSalesOrder(db, order, s, customers, itemCode, today, followUpFails);
            && (MakeSalesInvoice in r.followUps <==> r.db != db && order.financialStatus == "paid")
            && (MakeDeliveryNote in r.followUps <==> r.db != db && order.fulfillmentCount > 0)
            && (r.db != db ==> r.logs == [Success] && |r.db| == |db| + 1 && r.db[..|db|] == db)
  {
    var r := SyncSalesOrder(db, order, s, customers, itemCode, today, followUpFails);
    if FindSalesOrder(db, order.id).None? {
      match CreateSalesOrder(s, order, db, customers, itemCode, today, "")
      case Existing(_) =>
        CreatedSalesOrder(s, order, db, customers, itemCode, today, "");
        assert false;
      case NoItems =>
      case Failed(_) =>
      case Created(so) =>
        assert (db + [so])[..|db|] == db;
    }
  }

  // ---------------------------------------------------------------------
  // cancel_order

  /** A linked document's name, docstatus and order-status field. */
  datatype LinkedDoc = LinkedDoc(name: string, docstatus: int, orderStatus: string)

  /** The documents linked to a storefront order. */
  datatype OrderDocs = OrderDocs(salesOrder: Option<LinkedDoc>, invoice: Option<LinkedDoc>,
                                 deliveryNotes: seq<LinkedDoc>)

  /** The condition under which `cancel_order` cancels the Sales Order. */
  predicate CancelsSalesOrder(docs: OrderDocs)
  {
    docs.salesOrder.Some? && docs.invoice.None? && docs.deliveryNotes == []
    && docs.salesOrder.value.docstatus == 1
  }

  /** `cancel_order`: with no Sales Order nothing changes and Invalid is
      logged. Otherwise the invoice and every delivery note get the
      financial status; the Sales Order is cancelled exactly when no invoice
      or delivery note exists and it is submitted, and only flagged
      otherwise. */
  method CancelOrder(docs: OrderDocs, financialStatus: string) returns (result: OrderDocs, log: LogStatus)
    ensures docs.salesOrder.None? ==> result == docs && log == Invalid
    ensures docs.salesOrder.Some? ==>
              && log == Success
              && result.invoice == (if docs.invoice.Some?
                                    then Some(docs.invoice.value.(orderStatus := financialStatus))
                                    else None)
              && |result.deliveryNotes| == |docs.deliveryNotes|
              && (forall i :: 0 <= i < |docs.deliveryNotes| ==>
                    result.deliveryNotes[i] == docs.deliveryNotes[i].(orderStatus := financialStatus))
              && result.salesOrder.Some?
              && (result.salesOrder.value.docstatus == 2 && docs.salesOrder.value.docstatus != 2
                  <==> CancelsSalesOrder(docs))
              && (CancelsSalesOrder(docs) ==>
                    result.salesOrder.value == docs.salesOrder.value.(docstatus := 2))
              && (!CancelsSalesOrder(docs) ==>
                    result.salesOrder.value == docs.salesOrder.value.(orderStatus := financialStatus))
  {
    if docs.salesOrder.None? {
      return docs, Invalid;
    }
    var salesOrder := docs.salesOrder.value;
    var invoice := docs.invoice;
    if invoice.Some? {
      invoice := Some(invoice.value.(orderStatus := financialStatus));
    }
    var notes := docs.deliveryNotes;
    var i := 0;
    while i < |notes|
      invariant 0 <= i <= |notes| && |notes| == |docs.deliveryNotes|
      invariant forall j :: 0 <= j < i ==> notes[j] == docs.deliveryNotes[j].(orderStatus := financialStatus)
      invariant forall j :: i <= j < |notes| ==> notes[j] == docs.deliveryNotes[j]
    {
      notes := notes[i := notes[i].(orderStatus := financialStatus)];
      i := i + 1;
    }
    if docs.invoice.None? && docs.deliveryNotes == [] && salesOrder.docstatus == 1 {
      salesOrder := salesOrder.(docstatus := 2);
    } else {
      salesOrder := salesOrder.(orderStatus := financialStatus);
    }
    result := OrderDocs(Some(salesOrder), invoice, notes);
    log := Success;
  }
}
