/** The refund transform of shopify/order.py (`refund`): the shipping refund
    summed from the order adjustments, the refunded lines, the return
    Delivery Note copied from the order's Delivery Note with the refunded
    lines negated and its tax rows recomputed, the credit note and the
    refund payment. */
module Refund {
  import opened Common
  import opened Payload
  import opened Setting
  import opened OrderSync

  // ---------------------------------------------------------------------
  // Shipping refund

  predicate IsShippingRefund(a: Adjustment)
  {
    a.reason == "Shipping refund"
  }

  /** What a shipping-refund adjustment adds as the source is written:
      `amount or 0 + tax_amount or 0` parses as
      `amount or (0 + tax_amount) or 0`, so the tax is added only when the
      amount is 0, and then alone. */
  function AdjustmentRefundAsWritten(a: Adjustment): real
  {
    if a.amount != 0.0 then a.amount
    else if 0.0 + a.taxAmount != 0.0 then 0.0 + a.taxAmount
    else 0.0
  }

  /** What a shipping-refund adjustment evidently should add: its amount and
      its tax, each 0 when absent. */
  function AdjustmentRefund(a: Adjustment): real
  {
    a.amount + a.taxAmount
  }

  function ShippingPartAsWritten(a: Adjustment): real
  {
    if IsShippingRefund(a) then AdjustmentRefundAsWritten(a) else 0.0
  }

  function ShippingPart(a: Adjustment): real
  {
    if IsShippingRefund(a) then AdjustmentRefund(a) else 0.0
  }

  /** `shipamt` as the source computes it. */
  function ShippingRefundAsWritten(adjs: seq<Adjustment>): real
  {
    SumOf(adjs, ShippingPartAsWritten)
  }

  /** `shipamt` with amounts and taxes both added. */
  function ShippingRefund(adjs: seq<Adjustment>): real
  {
    SumOf(adjs, ShippingPart)
  }

  /** The tax of a shipping-refund adjustment with a non-zero amount, which
      the source's expression drops. */
  function DroppedTax(a: Adjustment): real
  {
    if IsShippingRefund(a) && a.amount != 0.0 then a.taxAmount else 0.0
  }

  /** The source's sum falls short of the intended one by exactly the taxes
      of the shipping refunds whose amount is non-zero. */
  lemma {:induction false} ShippingRefundShortfall(adjs: seq<Adjustment>)
    ensures ShippingRefund(adjs) == ShippingRefundAsWritten(adjs) + SumOf(adjs, DroppedTax)
    decreases |adjs|
  {
    if adjs != [] {
      ShippingRefundShortfall(adjs[..|adjs| - 1]);
    }
  }

  /** The input that shows it: one shipping refund of 5 with tax 1 is
      refunded as 5 instead of 6. */
  lemma ShippingRefundCounterexample()
    ensures var adjs := [Adjustment("Shipping refund", 5.0, 1.0)];
            ShippingRefundAsWritten(adjs) == 5.0 && ShippingRefund(adjs) == 6.0
  {
    var adjs := [Adjustment("Shipping refund", 5.0, 1.0)];
    assert adjs[..0] == [];
  }

  /** The corrected sum adds every shipping refund's amount and tax and
      ignores other adjustments. */
  lemma {:induction false} ShippingRefundSplits(adjs: seq<Adjustment>)
    ensures ShippingRefund(adjs)
            == SumOf(adjs, (a: Adjustment) => if IsShippingRefund(a) then a.amount else 0.0)
               + SumOf(adjs, (a: Adjustment) => if IsShippingRefund(a) then a.taxAmount else 0.0)
    decreases |adjs|
  {
    if adjs != [] {
      ShippingRefundSplits(adjs[..|adjs| - 1]);
    }
  }

  /** The loop of `refund` summing the shipping refunds, with the source's
      `amount or 0 + tax_amount or 0` evaluated as Python groups it. */
  method ShippingRefundAmount(adjs: seq<Adjustment>) returns (shipamt: real)
    ensures shipamt == ShippingRefundAsWritten(adjs)
  {
    shipamt := 0.0;
    var i := 0;
    while i < |adjs|
      invariant 0 <= i <= |adjs|
      invariant shipamt == SumOf(adjs[..i], ShippingPartAsWritten)
    {
      SumOfStep(adjs, i, ShippingPartAsWritten);
      var ship := adjs[i];
      if ship.reason == "Shipping refund" {
        var part := if ship.amount != 0.0 then ship.amount
                    else if 0.0 + ship.taxAmount != 0.0 then 0.0 + ship.taxAmount
                    else 0.0;
        shipamt := shipamt + part;
      }
      i := i + 1;
    }
    assert adjs[..i] == adjs;
  }

  // ---------------------------------------------------------------------
  // Refunded lines

  /** One entry of `refunditm`: the ERP item code of the refunded line
      (None when no Ecommerce Item maps its product and variant), its amount
      net of tax, its tax and its quantity. */
  datatype RefundItem = RefundItem(itemCode: Option<string>, amt: real, tax: real, qty: int)

  function RefundItemFor(rl: RefundLine, codes: map<(string, string), string>): RefundItem
  {
    var key := (rl.productId, rl.variantId);
    RefundItem(if key in codes then Some(codes[key]) else None, rl.subtotal - rl.totalTax, rl.totalTax, rl.quantity)
  }

  /** The loop over `refund_line_items`: the refunded item codes and entries. */
  method CollectRefundItems(rls: seq<RefundLine>, codes: map<(string, string), string>)
    returns (refunded: seq<Option<string>>, items: seq<RefundItem>)
    ensures |items| == |rls| && |refunded| == |rls|
    ensures forall i :: 0 <= i < |rls| ==>
              items[i] == RefundItemFor(rls[i], codes) && refunded[i] == items[i].itemCode
    ensures forall i :: 0 <= i < |rls| ==> items[i].amt + items[i].tax == rls[i].subtotal
  {
    refunded, items := [], [];
    var i := 0;
    while i < |rls|
      invariant 0 <= i <= |rls|
      invariant |items| == i && |refunded| == i
      invariant forall j :: 0 <= j < i ==>
                  items[j] == RefundItemFor(rls[j], codes) && refunded[j] == items[j].itemCode
    {
      var rl := rls[i];
      var tax := rl.totalTax;
      var subtotal := rl.subtotal;
      var key := (rl.productId, rl.variantId);
      var code := if key in codes then Some(codes[key]) else None;
      refunded := refunded + [code];
      items := items + [RefundItem(code, subtotal - tax, tax, rl.quantity)];
      i := i + 1;
    }
  }

  function ItemTax(ri: RefundItem): real { ri.tax }

  /** A refunded line's amount plus its tax (its subtotal). */
  function ItemGross(ri: RefundItem): real { ri.amt + ri.tax }

  // ---------------------------------------------------------------------
  // The return Delivery Note

  datatype DNItem = DNItem(
    itemCode: string,
    qty: real,
    stockQty: real,
    amount: real,
    baseAmount: real,
    netAmount: real,
    baseNetAmount: real,
    taxAmount: real,
    totalAmount: real)

  datatype DNTax = DNTax(
    accountHead: string,
    taxAmount: real,
    taxAmountAfterDiscount: real,
    baseTaxAmount: real,
    baseTaxAmountAfterDiscount: real,
    total: real,
    baseTotal: real)

  datatype DeliveryNote = DeliveryNote(
    name: string,
    namingSeries: string,
    postingDate: Date,
    status: string,
    isReturn: bool,
    returnAgainst: string,
    orderId: string,
    orderNumber: string,
    conversionRate: real,
    items: seq<DNItem>,
    taxes: seq<DNTax>)

  /** A Delivery Note line with its quantities and amounts negated. */
  function Negated(it: DNItem): DNItem
  {
    it.(qty := -it.qty, stockQty := -it.stockQty, amount := -it.amount, baseAmount := -it.baseAmount,
        netAmount := -it.netAmount, baseNetAmount := -it.baseNetAmount, taxAmount := -it.taxAmount,
        totalAmount := -it.totalAmount)
  }

  predicate IsRefunded(it: DNItem, refunded: seq<Option<string>>)
  {
    Some(it.itemCode) in refunded
  }

  /** The lines of the original note whose item was refunded, in order. */
  function RefundedLines(items: seq<DNItem>, refunded: seq<Option<string>>): seq<DNItem>
    decreases |items|
  {
    if items == [] then []
    else
      var init := RefundedLines(items[..|items| - 1], refunded);
      var it := items[|items| - 1];
      if IsRefunded(it, refunded) then init + [it] else init
  }

  /** The lines of the return note. */
  function ReturnItems(items: seq<DNItem>, refunded: seq<Option<string>>): seq<DNItem>
  {
    var kept := RefundedLines(items, refunded);
    seq(|kept|, k requires 0 <= k < |kept| => Negated(kept[k]))
  }

  /** The refunded lines are exactly the original lines whose item code is
      among the refunded codes, in their original order. */
  lemma {:induction false} RefundedLinesSpec(items: seq<DNItem>, refunded: seq<Option<string>>)
    ensures forall x :: x in RefundedLines(items, refunded) <==> x in items && IsRefunded(x, refunded)
    ensures |RefundedLines(items, refunded)| <= |items|
    ensures (forall j :: 0 <= j < |items| ==> IsRefunded(items[j], refunded))
            ==> RefundedLines(items, refunded) == items
    decreases |items|
  {
    if items != [] {
      var n := |items| - 1;
      RefundedLinesSpec(items[..n], refunded);
      assert items == items[..n] + [items[n]];
    }
  }

  function LineAmount(it: DNItem): real { it.amount }

  function LineQty(it: DNItem): real { it.qty }

  /** The return lines reverse exactly the refunded lines: their quantities
      and amounts sum to the negation of the refunded lines' ones, and
      negating them again gives the refunded lines back. */
  lemma ReturnItemsReverse(items: seq<DNItem>, refunded: seq<Option<string>>)
    ensures var kept := RefundedLines(items, refunded);
            var ret := ReturnItems(items, refunded);
            && |ret| == |kept|
            && (forall k :: 0 <= k < |ret| ==> Negated(ret[k]) == kept[k])
            && SumOf(ret, LineAmount) == -SumOf(kept, LineAmount)
            && SumOf(ret, LineQty) == -SumOf(kept, LineQty)
  {
    var kept := RefundedLines(items, refunded);
    NegatedSums(kept);
  }

  lemma {:induction false} NegatedSums(kept: seq<DNItem>)
    ensures var ret := seq(|kept|, k requires 0 <= k < |kept| => Negated(kept[k]));
            SumOf(ret, LineAmount) == -SumOf(kept, LineAmount)
            && SumOf(ret, LineQty) == -SumOf(kept, LineQty)
    decreases |kept|
  {
    if kept != [] {
      var n := |kept| - 1;
      var ret := seq(|kept|, k requires 0 <= k < |kept| => Negated(kept[k]));
      NegatedSums(kept[..n]);
      assert ret[..n] == seq(n, k requires 0 <= k < n => Negated(kept[..n][k]));
    }
  }

  /** The loop of `refund` over the original note's lines. */
  method BuildReturnItems(items: seq<DNItem>, refunded: seq<Option<string>>) returns (out: seq<DNItem>)
    ensures out == ReturnItems(items, refunded)
  {
    out := [];
    var i := 0;
    while i < |items|
      invariant 0 <= i <= |items|
      invariant out == ReturnItems(items[..i], refunded)
    {
      var itm := items[i];
      assert items[..i + 1][..i] == items[..i];
      if Some(itm.itemCode) in refunded {
        out := out + [Negated(itm)];
      }
      i := i + 1;
    }
    assert items[..i] == items;
  }

  /** The number of default-sales-tax rows among `txs`. */
  function DefaultRows(txs: seq<DNTax>, defaultHead: string): nat
    decreases |txs|
  {
    if txs == [] then 0
    else DefaultRows(txs[..|txs| - 1], defaultHead) + (if txs[|txs| - 1].accountHead == defaultHead then 1 else 0)
  }

  /** `subtot` after the rows `txs`: the refunded lines' gross, added once
      per default-sales-tax row. */
  function Subtot(txs: seq<DNTax>, defaultHead: string, ris: seq<RefundItem>): real
  {
    DefaultRows(txs, defaultHead) as real * SumOf(ris, ItemGross)
  }

  /** A tax row of the return note, given the running `subtot`. A
      default-sales-tax row carries the refunded tax negated and converted;
      any other row is a shipping row carrying the shipping refund. */
  function ReturnTaxRow(tx: DNTax, isDefault: bool, subtot: real, tax: real, shipamt: real, cr: real): DNTax
  {
    if isDefault then
      tx.(baseTaxAmount := tax * cr * -1.0, baseTaxAmountAfterDiscount := tax * cr * -1.0,
          baseTotal := subtot * -1.0 * cr, taxAmount := tax * cr * -1.0,
          taxAmountAfterDiscount := tax * cr * -1.0, total := subtot * -1.0)
    else
      tx.(baseTaxAmount := shipamt * cr, baseTaxAmountAfterDiscount := shipamt * cr,
          baseTotal := (subtot * -1.0 + shipamt) * cr, taxAmount := shipamt,
          taxAmountAfterDiscount := shipamt, total := subtot * -1.0 + shipamt)
  }

  /** The tax rows of the return note. `subtot` grows by the refunded
      lines' gross at every default-sales-tax row, so row k sees it
      multiplied by the number of default rows up to and including k. */
  function ReturnTaxes(txs: seq<DNTax>, defaultHead: string, ris: seq<RefundItem>, shipamt: real, cr: real)
    : (r: seq<DNTax>)
    ensures |r| == |txs|
    decreases |txs|
  {
    if txs == [] then []
    else
      var n := |txs| - 1;
      ReturnTaxes(txs[..n], defaultHead, ris, shipamt, cr)
      + [ReturnTaxRow(txs[n], txs[n].accountHead == defaultHead,
                      Subtot(txs, defaultHead, ris),
                      SumOf(ris, ItemTax), shipamt, cr)]
  }

  /** Row k of the return note is the recomputation of row k of the
      original, with `subtot` as it stands after row k. */
  lemma {:induction false} ReturnTaxesAt(txs: seq<DNTax>, defaultHead: string, ris: seq<RefundItem>, shipamt: real,
                                         cr: real, k: nat)
    requires k < |txs|
    ensures ReturnTaxes(txs, defaultHead, ris, shipamt, cr)[k]
            == ReturnTaxRow(txs[k], txs[k].accountHead == defaultHead,
                            Subtot(txs[..k + 1], defaultHead, ris),
                            SumOf(ris, ItemTax), shipamt, cr)
    decreases |txs|
  {
    var n := |txs| - 1;
    var rest := ReturnTaxes(txs[..n], defaultHead, ris, shipamt, cr);
    var last := ReturnTaxRow(txs[n], txs[n].accountHead == defaultHead,
                             Subtot(txs, defaultHead, ris),
                             SumOf(ris, ItemTax), shipamt, cr);
    assert ReturnTaxes(txs, defaultHead, ris, shipamt, cr) == rest + [last];
    if k < n {
      ReturnTaxesAt(txs[..n], defaultHead, ris, shipamt, cr, k);
      assert txs[..n][..k + 1] == txs[..k + 1];
      assert txs[..n][k] == txs[k];
      assert (rest + [last])[k] == rest[k];
    } else {
      assert txs[..k + 1] == txs;
      assert (rest + [last])[k] == last;
    }
  }

  lemma DefaultRowsStep(txs: seq<DNTax>, defaultHead: string, k: nat)
    requires k < |txs|
    ensures DefaultRows(txs[..k + 1], defaultHead)
            == DefaultRows(txs[..k], defaultHead) + (if txs[k].accountHead == defaultHead then 1 else 0)
  {
    assert txs[..k + 1][..k] == txs[..k];
  }

  lemma ReturnTaxesOrder(txs: seq<DNTax>, defaultHead: string, ris: seq<RefundItem>, shipamt: real, cr: real,
                         k: nat)
    requires k < |txs|
    ensures var row := ReturnTaxes(txs, defaultHead, ris, shipamt, cr)[k];
            var gross := SumOf(ris, ItemGross);
            && row.accountHead == txs[k].accountHead
            && (txs[k].accountHead == defaultHead ==>
                  && row.taxAmount == -(SumOf(ris, ItemTax) * cr)
                  && row.total == -(Subtot(txs[..k], defaultHead, ris) + gross))
            && (txs[k].accountHead != defaultHead ==>
                  && row.taxAmount == shipamt
                  && row.total == shipamt - Subtot(txs[..k], defaultHead, ris))
  {
    SubtotStep(txs, defaultHead, ris, k);
    ReturnTaxesAt(txs, defaultHead, ris, shipamt, cr, k);
  }

  /** A default-sales-tax row adds the refunded gross to `subtot`; any
      other row leaves it. */
  lemma SubtotStep(txs: seq<DNTax>, defaultHead: string, ris: seq<RefundItem>, k: nat)
    requires k < |txs|
    ensures Subtot(txs[..k + 1], defaultHead, ris)
            == Subtot(txs[..k], defaultHead, ris)
               + (if txs[k].accountHead == defaultHead then SumOf(ris, ItemGross) else 0.0)
  {
    DefaultRowsStep(txs, defaultHead, k);
    var n := DefaultRows(txs[..k], defaultHead) as real;
    var gross := SumOf(ris, ItemGross);
    if txs[k].accountHead == defaultHead {
      assert DefaultRows(txs[..k + 1], defaultHead) as real == n + 1.0;
      assert (n + 1.0) * gross == n * gross + gross;
    } else {
      assert DefaultRows(txs[..k + 1], defaultHead) as real == n;
    }
  }

  /** With one default-sales-tax row, shipping rows after it subtract the
      refunded gross from the shipping refund and shipping rows before it do
      not. */
  lemma ReturnTaxesShippingExample(dflt: DNTax, ship: DNTax, ris: seq<RefundItem>, shipamt: real, cr: real)
    requires dflt.accountHead == "VAT" && ship.accountHead == "Freight"
    ensures ReturnTaxes([dflt, ship], "VAT", ris, shipamt, cr)[1].total == shipamt - SumOf(ris, ItemGross)
    ensures ReturnTaxes([ship, dflt], "VAT", ris, shipamt, cr)[0].total == shipamt
  {
    ReturnTaxesOrder([dflt, ship], "VAT", ris, shipamt, cr, 1);
    ReturnTaxesOrder([ship, dflt], "VAT", ris, shipamt, cr, 0);
    assert [dflt, ship][..1] == [dflt];
    assert [dflt][..0] == [];
  }

  /** The inner loop of `refund` at a default-sales-tax row: it sums the
      refunded tax afresh and adds every refunded line's gross to `subtot`. */
  method AddRefundedLines(ris: seq<RefundItem>, subtot0: real) returns (tax: real, subtot: real)
    ensures tax == SumOf(ris, ItemTax)
    ensures subtot == subtot0 + SumOf(ris, ItemGross)
  {
    tax, subtot := 0.0, subtot0;
    var j := 0;
    while j < |ris|
      invariant 0 <= j <= |ris|
      invariant tax == SumOf(ris[..j], ItemTax)
      invariant subtot == subtot0 + SumOf(ris[..j], ItemGross)
    {
      SumOfStep(ris, j, ItemTax);
      SumOfStep(ris, j, ItemGross);
      tax := tax + ris[j].tax;
      subtot := subtot + (ris[j].amt + ris[j].tax);
      j := j + 1;
    }
    assert ris[..j] == ris;
  }

  /** The loop of `refund` over the original note's tax rows, with the
      `subtot` accumulator shared across rows. */
  method BuildReturnTaxes(txs: seq<DNTax>, defaultHead: string, ris: seq<RefundItem>, shipamt: real, cr: real)
    returns (out: seq<DNTax>)
    ensures out == ReturnTaxes(txs, defaultHead, ris, shipamt, cr)
  {
    out := [];
    var subtot := 0.0;
    var k := 0;
    while k < |txs|
      invariant 0 <= k <= |txs|
      invariant subtot == Subtot(txs[..k], defaultHead, ris)
      invariant out == ReturnTaxes(txs[..k], defaultHead, ris, shipamt, cr)
    {
      var tx := txs[k];
      SubtotStep(txs, defaultHead, ris, k);
      assert txs[..k + 1][..k] == txs[..k];
      assert txs[..k + 1][k] == tx;
      if defaultHead == tx.accountHead {
        var tax;
        tax, subtot := AddRefundedLines(ris, subtot);
        out := out + [ReturnTaxRow(tx, true, subtot, tax, shipamt, cr)];
      } else {
        out := out + [ReturnTaxRow(tx, false, subtot, 0.0, shipamt, cr)];
      }
      k := k + 1;
    }
    assert txs[..k] == txs;
  }

  // ---------------------------------------------------------------------
  // The whole refund

  /** The credit note made against the return note. */
  datatype CreditNote = CreditNote(returnNote: string, orderId: string, orderNumber: string,
                                   namingSeries: string, isReturn: bool)

  /** The payment entry made against the credit note. */
  datatype RefundPayment = RefundPayment(referenceNo: string, referenceDate: Date)

  datatype RefundOutcome =
    | NoSalesOrder                 // logged Invalid, nothing created
    | NoDeliveryNote               // `get_doc` raises: logged Error, rolled back
    | Refunded(returnNote: DeliveryNote, creditNote: CreditNote, payment: RefundPayment)

  /** The order's Delivery Note that is not a return, if any. */
  function FindDeliveryNote(notes: seq<DeliveryNote>, orderId: string, orderNumber: string): (r: Option<DeliveryNote>)
    ensures r.None? <==> forall j :: 0 <= j < |notes| ==>
                           notes[j].isReturn || notes[j].orderId != orderId || notes[j].orderNumber != orderNumber
    ensures r.Some? ==> r.value in notes && !r.value.isReturn && r.value.orderId == orderId
                        && r.value.orderNumber == orderNumber
  {
    if notes == [] then None
    else if !notes[0].isReturn && notes[0].orderId == orderId && notes[0].orderNumber == orderNumber
    then Some(notes[0])
    else FindDeliveryNote(notes[1..], orderId, orderNumber)
  }

  /** The return note built from the original: a draft return against it in
      the return series, posted today, with the refunded lines negated and
      the tax rows recomputed. Its name is assigned on save (`returnName`). */
  function ReturnNote(dn: DeliveryNote, s: ShopifySetting, refunded: seq<Option<string>>, ris: seq<RefundItem>,
                      shipamt: real, today: Date, returnName: string): DeliveryNote
  {
    dn.(name := returnName, namingSeries := s.deliveryNoteReturnSeries, postingDate := today,
        status := "Draft", isReturn := true, returnAgainst := dn.name,
        items := ReturnItems(dn.items, refunded),
        taxes := ReturnTaxes(dn.taxes, s.defaultSalesTaxAccount, ris, shipamt, dn.conversionRate))
  }

  /** What `refund` produces. */
  function RefundDocs(refund: RefundPayload, db: seq<SalesOrder>, notes: seq<DeliveryNote>, s: ShopifySetting,
                      codes: map<(string, string), string>, today: Date, returnName: string): RefundOutcome
  {
    match FindSalesOrder(db, refund.orderId)
    case None => NoSalesOrder
    case Some(so) =>
      match FindDeliveryNote(notes, so.orderId, so.orderNumber)
      case None => NoDeliveryNote
      case Some(dn) =>
        var ris := seq(|refund.refundLines|, i requires 0 <= i < |refund.refundLines| =>
                         RefundItemFor(refund.refundLines[i], codes));
        var refunded := seq(|ris|, i requires 0 <= i < |ris| => ris[i].itemCode);
        Refunded(ReturnNote(dn, s, refunded, ris, ShippingRefundAsWritten(refund.adjustments), today, returnName),
                 CreditNote(returnName, so.orderId, so.orderNumber, s.creditNoteSeries, true),
                 RefundPayment(so.orderNumber + " Refund", today))
  }

  /** The return note is a draft return in the return series against the
      original note; it keeps every tax row (recomputed) and only refunded
      lines (negated). */
  lemma ReturnNoteShape(dn: DeliveryNote, s: ShopifySetting, refunded: seq<Option<string>>, ris: seq<RefundItem>,
                        shipamt: real, today: Date, returnName: string)
    ensures var rn := ReturnNote(dn, s, refunded, ris, shipamt, today, returnName);
            && rn.isReturn && rn.returnAgainst == dn.name && rn.status == "Draft"
            && rn.namingSeries == s.deliveryNoteReturnSeries && rn.postingDate == today
            && rn.orderId == dn.orderId && rn.orderNumber == dn.orderNumber
            && |rn.taxes| == |dn.taxes| && |rn.items| <= |dn.items|
            && (forall x :: x in rn.items ==> Negated(x) in dn.items && Some(x.itemCode) in refunded)
  {
    ReturnItemsFrom(dn.items, refunded);
  }

  /** Every return line is the negation of an original line of a refunded
      item. */
  lemma ReturnItemsFrom(items: seq<DNItem>, refunded: seq<Option<string>>)
    ensures |ReturnItems(items, refunded)| <= |items|
    ensures forall x :: x in ReturnItems(items, refunded) ==> Negated(x) in items && Some(x.itemCode) in refunded
  {
    RefundedLinesSpec(items, refunded);
    var kept := RefundedLines(items, refunded);
    var ret := ReturnItems(items, refunded);
    forall x | x in ret
      ensures Negated(x) in items && Some(x.itemCode) in refunded
    {
      var k :| 0 <= k < |ret| && ret[k] == x;
      assert Negated(x) == kept[k];
      assert kept[k] in kept;
    }
  }

  /** A refund is a return against the order's Delivery Note: nothing is
      made when no Sales Order carries the order id; otherwise the return
      note returns against a non-return note of the order, keeps only lines
      of refunded items, and the credit note and payment reference it and
      the order. */
  lemma RefundIsReturn(refund: RefundPayload, db: seq<SalesOrder>, notes: seq<DeliveryNote>, s: ShopifySetting,
                       codes: map<(string, string), string>, today: Date, returnName: string)
    ensures var r := RefundDocs(refund, db, notes, s, codes, today, returnName);
            && (r.NoSalesOrder? <==> forall j :: 0 <= j < |db| ==> db[j].orderId != refund.orderId)
            && (r.Refunded? ==>
                  && (exists dn :: dn in notes && !dn.isReturn && r.returnNote.returnAgainst == dn.name
                       && dn.orderNumber == r.creditNote.orderNumber)
                  && r.returnNote.isReturn && r.returnNote.status == "Draft"
                  && r.returnNote.namingSeries == s.deliveryNoteReturnSeries
                  && (forall x :: x in r.returnNote.items ==>
                        exists i :: 0 <= i < |refund.refundLines| &&
                          RefundItemFor(refund.refundLines[i], codes).itemCode == Some(x.itemCode))
                  && r.creditNote.isReturn && r.creditNote.returnNote == returnName
                  && r.payment.referenceNo == r.creditNote.orderNumber + " Refund")
  {
    var r := RefundDocs(refund, db, notes, s, codes, today, returnName);
    if r.Refunded? {
      var so := FindSalesOrder(db, refund.orderId).value;
      var dn := FindDeliveryNote(notes, so.orderId, so.orderNumber).value;
      var ris := seq(|refund.refundLines|, i requires 0 <= i < |refund.refundLines| =>
                       RefundItemFor(refund.refundLines[i], codes));
      var refunded := seq(|ris|, i requires 0 <= i < |ris| => ris[i].itemCode);
      ReturnNoteShape(dn, s, refunded, ris, ShippingRefundAsWritten(refund.adjustments), today, returnName);
      forall x | x in r.returnNote.items
        ensures exists i :: 0 <= i < |refund.refundLines| &&
                  RefundItemFor(refund.refundLines[i], codes).itemCode == Some(x.itemCode)
      {
        var i :| 0 <= i < |refunded| && refunded[i] == Some(x.itemCode);
        assert RefundItemFor(refund.refundLines[i], codes).itemCode == Some(x.itemCode);
      }
    }
  }

  /** Every return tax row not on the default sales-tax account carries the
      shipping refund as the source sums it, which falls short of the
      amounts plus taxes of the shipping refunds by the taxes it drops. */
  lemma RefundShippingRows(refund: RefundPayload, db: seq<SalesOrder>, notes: seq<DeliveryNote>,
                           s: ShopifySetting, codes: map<(string, string), string>, today: Date,
                           returnName: string, k: nat)
    ensures var r := RefundDocs(refund, db, notes, s, codes, today, returnName);
            r.Refunded? && k < |r.returnNote.taxes|
            && r.returnNote.taxes[k].accountHead != s.defaultSalesTaxAccount ==>
              && r.returnNote.taxes[k].taxAmount == ShippingRefundAsWritten(refund.adjustments)
              && r.returnNote.taxes[k].taxAmount
                 == ShippingRefund(refund.adjustments) - SumOf(refund.adjustments, DroppedTax)
  {
    var r := RefundDocs(refund, db, notes, s, codes, today, returnName);
    ShippingRefundShortfall(refund.adjustments);
    if r.Refunded? {
      var so := FindSalesOrder(db, refund.orderId).value;
      var dn := FindDeliveryNote(notes, so.orderId, so.orderNumber).value;
      var ris := seq(|refund.refundLines|, i requires 0 <= i < |refund.refundLines| =>
                       RefundItemFor(refund.refundLines[i], codes));
      var refunded := seq(|ris|, i requires 0 <= i < |ris| => ris[i].itemCode);
      var shipamt := ShippingRefundAsWritten(refund.adjustments);
      ReturnNoteShape(dn, s, refunded, ris, shipamt, today, returnName);
      if k < |dn.taxes| {
        ReturnTaxesOrder(dn.taxes, s.defaultSalesTaxAccount, ris, shipamt, dn.conversionRate, k);
      }
    }
  }

  /** `refund`: the loops above, then the return note, the credit note and
      the payment. */
  method ProcessRefund(refund: RefundPayload, db: seq<SalesOrder>, notes: seq<DeliveryNote>, s: ShopifySetting,
                       codes: map<(string, string), string>, today: Date, returnName: string)
    returns (outcome: RefundOutcome)
    ensures outcome == RefundDocs(refund, db, notes, s, codes, today, returnName)
  {
    var found := FindSalesOrder(db, refund.orderId);
    if found.None? {
      return NoSalesOrder;
    }
    var so := found.value;
    var shipamt := ShippingRefundAmount(refund.adjustments);
    var refunded, ris := CollectRefundItems(refund.refundLines, codes);
    var original := FindDeliveryNote(notes, so.orderId, so.orderNumber);
    if original.None? {
      return NoDeliveryNote;
    }
    var dn := original.value;
    var items := BuildReturnItems(dn.items, refunded);
    var taxes := BuildReturnTaxes(dn.taxes, s.defaultSalesTaxAccount, ris, shipamt, dn.conversionRate);
    var returnNote := dn.(name := returnName, namingSeries := s.deliveryNoteReturnSeries, postingDate := today,
                          status := "Draft", isReturn := true, returnAgainst := dn.name,
                          items := items, taxes := taxes);
    assert ris == seq(|refund.refundLines|, i requires 0 <= i < |refund.refundLines| =>
                        RefundItemFor(refund.refundLines[i], codes));
    assert refunded == seq(|ris|, i requires 0 <= i < |ris| => ris[i].itemCode);
    var creditNote := CreditNote(returnName, so.orderId, so.orderNumber, s.creditNoteSeries, true);
    outcome := Refunded(returnNote, creditNote, RefundPayment(so.orderNumber + " Refund", today));
  }
}
