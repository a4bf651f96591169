/** The order line builder of shopify/order.py: net rates under inclusive and
    exclusive taxes, and the Sales Order items built from the storefront
    line items (`_get_total_discount`, `_get_item_price`, `get_order_items`). */
module OrderItems {
  import opened Common
  import opened Payload
  import opened Setting

  /** A Sales Order item row. Product rows come from line items; a shipping
      row is added when shipping is booked as an item. */
  datatype OrderItem =
    | ProductItem(
        itemCode: string,
        itemName: string,
        rate: real,
        deliveryDate: Date,
        qty: int,
        stockUom: string,
        warehouse: string,
        discountPerUnit: real)
    | ShippingItem(
        itemCode: string,
        rate: real,
        deliveryDate: Date,
        qty: int,
        stockUom: string,
        warehouse: string)

  /** The line's total discount: the sum of its discount allocations (0 for
      none). */
  function TotalDiscount(li: LineItem): real
  {
    SumOf(li.discountAllocations, Id)
  }

  /** The net unit rate: the price less the per-unit share of the discount
      and, when prices include tax, of the line's taxes. */
  function NetRate(li: LineItem, taxesInclusive: bool): (rate: real)
    ensures rate * (li.quantity as real) ==
            li.price * (li.quantity as real) - TotalDiscount(li)
            - (if taxesInclusive then TaxTotal(li.taxLines) else 0.0)
  {
    var qty := li.quantity as real;
    if !taxesInclusive then li.price - TotalDiscount(li) / qty
    else li.price - (TaxTotal(li.taxLines) + TotalDiscount(li)) / qty
  }

  /** Price 100, discount 10, tax 5 and quantity 1 give 90 exclusive of tax
      and 85 inclusive. */
  lemma NetRateExample()
    ensures var li := LineItem(true, "", "", "", "", 1, 100.0, "", [10.0], [TaxLine("VAT", 0.05, 5.0)]);
            NetRate(li, false) == 90.0 && NetRate(li, true) == 85.0
  {
    var li := LineItem(true, "", "", "", "", 1, 100.0, "", [10.0], [TaxLine("VAT", 0.05, 5.0)]);
    assert li.discountAllocations[..0] == [];
    assert li.taxLines[..0] == [];
  }

  /** `_get_item_price`: the tax total is accumulated by a loop. */
  method ItemPrice(li: LineItem, taxesInclusive: bool) returns (rate: real)
    ensures rate == NetRate(li, taxesInclusive)
  {
    var price := li.price;
    var qty := li.quantity as real;
    var totalDiscount := TotalDiscount(li);
    if !taxesInclusive {
      return price - totalDiscount / qty;
    }
    var totalTaxes := 0.0;
    var i := 0;
    while i < |li.taxLines|
      invariant 0 <= i <= |li.taxLines|
      invariant totalTaxes == SumOf(li.taxLines[..i], TaxPrice)
    {
      SumOfStep(li.taxLines, i, TaxPrice);
      totalTaxes := totalTaxes + li.taxLines[i].price;
      i := i + 1;
    }
    assert li.taxLines[..i] == li.taxLines;
    rate := price - (totalTaxes + totalDiscount) / qty;
  }

  /** The Sales Order item built for one line item whose product exists. */
  function ItemFor(li: LineItem, s: ShopifySetting, itemCode: LineItem -> string,
                   deliveryDate: Date, taxesInclusive: bool): OrderItem
  {
    ProductItem(itemCode(li), li.name, NetRate(li, taxesInclusive), deliveryDate,
                li.quantity, Or(li.uom, "Nos"), s.warehouse,
                TotalDiscount(li) / (li.quantity as real))
  }

  function ItemsFor(lis: seq<LineItem>, s: ShopifySetting, itemCode: LineItem -> string,
                    deliveryDate: Date, taxesInclusive: bool): seq<OrderItem>
  {
    seq(|lis|, k requires 0 <= k < |lis| => ItemFor(lis[k], s, itemCode, deliveryDate, taxesInclusive))
  }

  /** The index of the first line item without a product, or |lis|. */
  function FirstMissing(lis: seq<LineItem>): (k: nat)
    ensures k <= |lis|
    ensures forall j :: 0 <= j < k ==> lis[j].productExists
    ensures k < |lis| ==> !lis[k].productExists
  {
    if lis == [] || !lis[0].productExists then 0 else 1 + FirstMissing(lis[1..])
  }

  /** Some line item strictly between `lo` and `hi` has a product. */
  predicate ExistingBetween(lis: seq<LineItem>, lo: int, hi: int)
  {
    exists j :: lo < j < hi && 0 <= j < |lis| && lis[j].productExists
  }

  /** The items `get_order_items` returns: those of the line items before
      the first one without a product, unless a line item with a product
      follows that one, in which case none. */
  function OrderItemsFor(lis: seq<LineItem>, s: ShopifySetting, itemCode: LineItem -> string,
                         deliveryDate: Date, taxesInclusive: bool): seq<OrderItem>
  {
    var k := FirstMissing(lis);
    if ExistingBetween(lis, k, |lis|) then []
    else ItemsFor(lis[..k], s, itemCode, deliveryDate, taxesInclusive)
  }

  /** The gating of `get_order_items`: a line item without a product never
      yields an item; every item is built from a line item with a product,
      in order; an existing line item after a missing one empties the list,
      and otherwise the items of the line items before the missing one
      survive. */
  lemma OrderItemsGating(lis: seq<LineItem>, s: ShopifySetting, itemCode: LineItem -> string,
                         deliveryDate: Date, taxesInclusive: bool)
    ensures var items := OrderItemsFor(lis, s, itemCode, deliveryDate, taxesInclusive);
            && |items| <= |lis|
            && (forall j :: 0 <= j < |items| ==>
                  lis[j].productExists && items[j] == ItemFor(lis[j], s, itemCode, deliveryDate, taxesInclusive))
            && ((exists a, b :: 0 <= a < b < |lis| && !lis[a].productExists && lis[b].productExists)
                ==> items == [])
            && (forall a :: 0 <= a < |lis| && !lis[a].productExists
                  && (forall b :: a < b < |lis| ==> !lis[b].productExists)
                  && (forall b :: 0 <= b < a ==> lis[b].productExists)
                  ==> items == ItemsFor(lis[..a], s, itemCode, deliveryDate, taxesInclusive))
  {
    var k := FirstMissing(lis);
    var items := OrderItemsFor(lis, s, itemCode, deliveryDate, taxesInclusive);
    if exists a, b :: 0 <= a < b < |lis| && !lis[a].productExists && lis[b].productExists {
      var a, b :| 0 <= a < b < |lis| && !lis[a].productExists && lis[b].productExists;
      assert k <= a;
      assert ExistingBetween(lis, k, |lis|);
    }
  }

  /** `get_order_items`. Items are appended while every line item so far has
      a product; a line item without one sets the flag, and every later
      line item with a product then empties the list. */
  method GetOrderItems(lis: seq<LineItem>, s: ShopifySetting, itemCode: LineItem -> string,
                       deliveryDate: Date, taxesInclusive: bool)
    returns (items: seq<OrderItem>)
    ensures items == OrderItemsFor(lis, s, itemCode, deliveryDate, taxesInclusive)
    ensures (forall j :: 0 <= j < |lis| ==> lis[j].productExists) ==>
              BuiltFromLines(items, lis, s, itemCode, deliveryDate, taxesInclusive)
  {
    items := [];
    var allProductExists := true;
    var i := 0;
    while i < |lis|
      invariant 0 <= i <= |lis|
      invariant GatedUpTo(lis, i, items, allProductExists, s, itemCode, deliveryDate, taxesInclusive)
    {
      items, allProductExists :=
        AddLineItem(lis, i, s, itemCode, deliveryDate, taxesInclusive, items, allProductExists);
      i := i + 1;
    }
    GatedFinal(lis, items, allProductExists, s, itemCode, deliveryDate, taxesInclusive);
  }

  /** The state of `get_order_items` after the first `i` line items: the
      flag records whether a line item without a product has been met, and
      the list is the items so far, or empty once an existing line item has
      followed a missing one. */
  ghost predicate GatedUpTo(lis: seq<LineItem>, i: nat, items: seq<OrderItem>, allProductExists: bool,
                            s: ShopifySetting, itemCode: LineItem -> string,
                            deliveryDate: Date, taxesInclusive: bool)
    requires i <= |lis|
  {
    var k := FirstMissing(lis);
    && (allProductExists <==> i <= k)
    && (allProductExists ==> items == ItemsFor(lis[..i], s, itemCode, deliveryDate, taxesInclusive))
    && (!allProductExists ==>
          items == if ExistingBetween(lis, k, i) then []
                   else ItemsFor(lis[..k], s, itemCode, deliveryDate, taxesInclusive))
  }

  /** After the last line item the loop's state is the specified list. */
  lemma GatedFinal(lis: seq<LineItem>, items: seq<OrderItem>, allProductExists: bool,
                   s: ShopifySetting, itemCode: LineItem -> string,
                   deliveryDate: Date, taxesInclusive: bool)
    requires GatedUpTo(lis, |lis|, items, allProductExists, s, itemCode, deliveryDate, taxesInclusive)
    ensures items == OrderItemsFor(lis, s, itemCode, deliveryDate, taxesInclusive)
    ensures (forall j :: 0 <= j < |lis| ==> lis[j].productExists) ==>
              BuiltFromLines(items, lis, s, itemCode, deliveryDate, taxesInclusive)
  {
    assert lis[..|lis|] == lis;
    OrderItemsForAllExisting(lis, s, itemCode, deliveryDate, taxesInclusive);
    ItemsForFields(lis, s, itemCode, deliveryDate, taxesInclusive);
  }

  /** One iteration of the loop of `get_order_items`. */
  method AddLineItem(lis: seq<LineItem>, i: nat, s: ShopifySetting, itemCode: LineItem -> string,
                     deliveryDate: Date, taxesInclusive: bool,
                     items: seq<OrderItem>, allProductExists: bool)
    returns (items': seq<OrderItem>, allProductExists': bool)
    requires i < |lis|
    requires GatedUpTo(lis, i, items, allProductExists, s, itemCode, deliveryDate, taxesInclusive)
    ensures GatedUpTo(lis, i + 1, items', allProductExists', s, itemCode, deliveryDate, taxesInclusive)
  {
    ghost var k := FirstMissing(lis);
    var li := lis[i];
    items', allProductExists' := items, allProductExists;
    if !li.productExists {
      if allProductExists {
        assert i == k && !ExistingBetween(lis, k, i + 1);
      } else {
        assert ExistingBetween(lis, k, i + 1) == ExistingBetween(lis, k, i);
      }
      allProductExists' := false;
    } else if allProductExists {
      var rate := ItemPrice(li, taxesInclusive);
      ItemsForStep(lis, i, s, itemCode, deliveryDate, taxesInclusive);
      items' := items + [ProductItem(itemCode(li), li.name, rate, deliveryDate, li.quantity,
                                     Or(li.uom, "Nos"), s.warehouse,
                                     TotalDiscount(li) / (li.quantity as real))];
    } else {
      assert ExistingBetween(lis, k, i + 1);
      items' := [];
    }
  }

  /** When every line item has a product nothing is gated: each line item
      yields its item. */
  lemma OrderItemsForAllExisting(lis: seq<LineItem>, s: ShopifySetting, itemCode: LineItem -> string,
                                 deliveryDate: Date, taxesInclusive: bool)
    ensures (forall j :: 0 <= j < |lis| ==> lis[j].productExists) ==>
              OrderItemsFor(lis, s, itemCode, deliveryDate, taxesInclusive)
              == ItemsFor(lis, s, itemCode, deliveryDate, taxesInclusive)
  {
    if forall j :: 0 <= j < |lis| ==> lis[j].productExists {
      var k := FirstMissing(lis);
      assert k == |lis|;
      assert !ExistingBetween(lis, k, |lis|);
      assert lis[..k] == lis;
    }
  }

  /** One item per line item, each carrying its line item's code, quantity,
      net rate, the delivery date, `uom or "Nos"`, the setting's warehouse
      and a per-unit discount that multiplies back to the line's discount. */
  predicate BuiltFromLines(items: seq<OrderItem>, lis: seq<LineItem>, s: ShopifySetting,
                           itemCode: LineItem -> string, deliveryDate: Date, taxesInclusive: bool)
  {
    |items| == |lis| &&
    forall j :: 0 <= j < |lis| ==>
      && items[j].ProductItem?
      && items[j].itemCode == itemCode(lis[j])
      && items[j].qty == lis[j].quantity
      && items[j].rate == NetRate(lis[j], taxesInclusive)
      && items[j].deliveryDate == deliveryDate
      && items[j].stockUom == Or(lis[j].uom, "Nos")
      && items[j].warehouse == s.warehouse
      && items[j].discountPerUnit * (lis[j].quantity as real) == TotalDiscount(lis[j])
  }

  /** Every built item carries its line item's code, quantity, rate, UOM,
      warehouse and per-unit discount. */
  lemma ItemsForFields(lis: seq<LineItem>, s: ShopifySetting, itemCode: LineItem -> string,
                       deliveryDate: Date, taxesInclusive: bool)
    ensures BuiltFromLines(ItemsFor(lis, s, itemCode, deliveryDate, taxesInclusive),
                           lis, s, itemCode, deliveryDate, taxesInclusive)
  {
    var items := ItemsFor(lis, s, itemCode, deliveryDate, taxesInclusive);
    forall j | 0 <= j < |lis|
      ensures items[j].discountPerUnit * (lis[j].quantity as real) == TotalDiscount(lis[j])
    {
      var q := lis[j].quantity as real;
      assert items[j].discountPerUnit == TotalDiscount(lis[j]) / q;
    }
  }

  lemma ItemsForStep(lis: seq<LineItem>, i: nat, s: ShopifySetting, itemCode: LineItem -> string,
                     deliveryDate: Date, taxesInclusive: bool)
    requires i < |lis|
    ensures ItemsFor(lis[..i + 1], s, itemCode, deliveryDate, taxesInclusive)
         == ItemsFor(lis[..i], s, itemCode, deliveryDate, taxesInclusive)
            + [ItemFor(lis[i], s, itemCode, deliveryDate, taxesInclusive)]
  {
  }
}
