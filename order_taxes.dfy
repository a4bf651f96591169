/** The tax and shipping resolver of shopify/order.py: account resolution
    (`get_tax_account_head`), one tax row per product tax line
    (`get_order_taxes`), shipping charges as an item or as tax rows
    (`update_taxes_with_shipping_lines`) and the group-by-account fold
    (`consolidate_order_taxes`). */
module OrderTaxation {
  import opened Common
  import opened Payload
  import opened Setting
  import opened OrderItems

  datatype ChargeType = SalesTax | Shipping

  /** `frappe.throw("Tax Account not specified for Shopify Tax ...")`. */
  datatype TaxError = MissingTaxAccount(title: string)

  /** A row description: the configured tax description or shipping title,
      or the "<title> - <rate>%" label built from the tax line. */
  datatype Description = Text(text: string) | RateLabel(title: string, ratePercent: real)

  /** One `item_wise_tax_detail` entry: `[rate * 100, price]`. */
  datatype TaxDetail = TaxDetail(ratePercent: real, amount: real)

  /** A Sales Order tax row; every row has charge type "Actual".
      `itemWiseTaxDetail` is None for a row that has no such field. */
  datatype TaxRow = TaxRow(
    accountHead: string,
    description: Description,
    taxAmount: real,
    costCenter: string,
    itemWiseTaxDetail: Option<map<string, TaxDetail>>)

  /** The tax rows and the items of a Sales Order under construction. */
  datatype Booking = Booking(taxes: seq<TaxRow>, items: seq<OrderItem>)

  function RowAmount(r: TaxRow): real { r.taxAmount }

  function ItemRate(i: OrderItem): real { i.rate }

  /** Every row has a resolved account (never the empty string). */
  predicate AccountsResolved(rows: seq<TaxRow>)
  {
    forall k :: 0 <= k < |rows| ==> rows[k].accountHead != ""
  }

  // ---------------------------------------------------------------------
  // Account and description resolution

  function DefaultAccount(s: ShopifySetting, c: ChargeType): string
  {
    match c
    case SalesTax => s.defaultSalesTaxAccount
    case Shipping => s.defaultShippingChargesAccount
  }

  /** `get_tax_account_head`: the account mapped to the title, else the
      default account of the charge type, else an error; never "". */
  function TaxAccountHead(s: ShopifySetting, title: string, chargeType: Option<ChargeType>)
    : (r: Result<string, TaxError>)
    ensures r.Ok? ==> r.value != ""
    ensures MappedTaxAccount(s, title) != "" ==> r == Ok(MappedTaxAccount(s, title))
    ensures MappedTaxAccount(s, title) == "" && chargeType.Some?
            && DefaultAccount(s, chargeType.value) != ""
            ==> r == Ok(DefaultAccount(s, chargeType.value))
    ensures r.Err? <==> MappedTaxAccount(s, title) == ""
                        && (chargeType.None? || DefaultAccount(s, chargeType.value) == "")
    ensures r.Err? ==> r.error == MissingTaxAccount(title)
  {
    var mapped := MappedTaxAccount(s, title);
    var account := if mapped == "" && chargeType.Some? then DefaultAccount(s, chargeType.value) else mapped;
    if account == "" then Err(MissingTaxAccount(title)) else Ok(account)
  }

  function TaxDescription(s: ShopifySetting, tl: TaxLine): Description
  {
    var configured := MappedTaxDescription(s, tl.title);
    if configured != "" then Text(configured) else RateLabel(tl.title, tl.rate * 100.0)
  }

  // ---------------------------------------------------------------------
  // One row per tax line

  /** Rows for a list of tax lines, one per line in order; the first line
      whose row cannot be built aborts with its error. */
  function MapRows(tls: seq<TaxLine>, f: TaxLine -> Result<TaxRow, TaxError>)
    : Result<seq<TaxRow>, TaxError>
    decreases |tls|
  {
    if tls == [] then Ok([])
    else
      match MapRows(tls[..|tls| - 1], f)
      case Err(e) => Err(e)
      case Ok(rows) =>
        match f(tls[|tls| - 1])
        case Err(e) => Err(e)
        case Ok(row) => Ok(rows + [row])
  }

  lemma {:induction false} MapRowsSpec(tls: seq<TaxLine>, f: TaxLine -> Result<TaxRow, TaxError>)
    ensures MapRows(tls, f).Ok? <==> forall k :: 0 <= k < |tls| ==> f(tls[k]).Ok?
    ensures MapRows(tls, f).Ok? ==>
              |MapRows(tls, f).value| == |tls| &&
              forall k :: 0 <= k < |tls| ==> MapRows(tls, f).value[k] == f(tls[k]).value
    ensures MapRows(tls, f).Err? ==>
              exists k :: 0 <= k < |tls| && f(tls[k]) == Err(MapRows(tls, f).error)
                          && forall j :: 0 <= j < k ==> f(tls[j]).Ok?
    decreases |tls|
  {
    if tls != [] {
      var n := |tls| - 1;
      var init := tls[..n];
      MapRowsSpec(init, f);
      assert forall k :: 0 <= k < n ==> init[k] == tls[k];
      match MapRows(init, f)
      case Err(e) =>
        var k :| 0 <= k < n && f(init[k]) == Err(e) && forall j :: 0 <= j < k ==> f(init[j]).Ok?;
        assert f(tls[k]) == Err(e);
      case Ok(rows) =>
    }
  }

  lemma MapRowsStep(tls: seq<TaxLine>, j: nat, f: TaxLine -> Result<TaxRow, TaxError>)
    requires j < |tls|
    ensures MapRows(tls[..j + 1], f) ==
              match MapRows(tls[..j], f)
              case Err(e) => Err(e)
              case Ok(rows) =>
                match f(tls[j])
                case Err(e) => Err(e)
                case Ok(row) => Ok(rows + [row])
  {
    assert tls[..j + 1][..j] == tls[..j];
  }

  lemma {:induction false} MapRowsErrPrefix(tls: seq<TaxLine>, k: nat, f: TaxLine -> Result<TaxRow, TaxError>)
    requires k <= |tls| && MapRows(tls[..k], f).Err?
    ensures MapRows(tls, f) == MapRows(tls[..k], f)
    decreases |tls| - k
  {
    if k == |tls| {
      assert tls[..k] == tls;
    } else {
      MapRowsStep(tls, k, f);
      MapRowsErrPrefix(tls, k + 1, f);
    }
  }

  /** The total of the rows built for some tax lines is the total of their
      prices, when every row maps each line's price to its amount. */
  lemma {:induction false} MapRowsTotal(tls: seq<TaxLine>, f: TaxLine -> Result<TaxRow, TaxError>)
    requires forall tl :: f(tl).Ok? ==> f(tl).value.taxAmount == tl.price && f(tl).value.accountHead != ""
    ensures MapRows(tls, f).Ok? ==>
              SumOf(MapRows(tls, f).value, RowAmount) == TaxTotal(tls)
              && AccountsResolved(MapRows(tls, f).value)
    decreases |tls|
  {
    if tls != [] {
      var n := |tls| - 1;
      MapRowsTotal(tls[..n], f);
      if MapRows(tls, f).Ok? {
        var rows := MapRows(tls[..n], f).value;
        var row := f(tls[n]).value;
        SumOfAppend(rows, [row], RowAmount);
        assert SumOf([row], RowAmount) == row.taxAmount by {
          assert [row][..0] == [];
        }
      }
    }
  }

  /** The row for one product tax line: the tax price, the item-wise detail
      `{item_code: [rate * 100, price]}` and the given cost centre. */
  function LineTaxRow(s: ShopifySetting, tl: TaxLine, itemCode: string, costCenter: string)
    : Result<TaxRow, TaxError>
  {
    match TaxAccountHead(s, tl.title, Some(SalesTax))
    case Err(e) => Err(e)
    case Ok(account) =>
      Ok(TaxRow(account, TaxDescription(s, tl), tl.price, costCenter,
                Some(map[itemCode := TaxDetail(tl.rate * 100.0, tl.price)])))
  }

  function LineRowOf(s: ShopifySetting, itemCode: string, costCenter: string)
    : TaxLine -> Result<TaxRow, TaxError>
  {
    (tl: TaxLine) => LineTaxRow(s, tl, itemCode, costCenter)
  }

  // ---------------------------------------------------------------------
  // Vendor mapping: last line item with a mapping wins

  /** The mapping held after the loop over `lis`: each line item's lookup
      overwrites the previous one when it finds a row. */
  function LastVendor(s: ShopifySetting, lis: seq<LineItem>): Option<VendorAccount>
    decreases |lis|
  {
    if lis == [] then None
    else
      match VendorFor(s, lis[|lis| - 1].vendor)
      case Some(v) => Some(v)
      case None => LastVendor(s, lis[..|lis| - 1])
  }

  lemma {:induction false} LastVendorWins(s: ShopifySetting, lis: seq<LineItem>)
    ensures LastVendor(s, lis).None? <==>
              forall j :: 0 <= j < |lis| ==> VendorFor(s, lis[j].vendor).None?
    ensures LastVendor(s, lis).Some? ==>
              exists j :: 0 <= j < |lis| && VendorFor(s, lis[j].vendor) == LastVendor(s, lis)
                          && forall k :: j < k < |lis| ==> VendorFor(s, lis[k].vendor).None?
    decreases |lis|
  {
    if lis != [] {
      var n := |lis| - 1;
      var init := lis[..n];
      LastVendorWins(s, init);
      assert forall k :: 0 <= k < n ==> init[k] == lis[k];
      if VendorFor(s, lis[n].vendor).None? && LastVendor(s, init).Some? {
        var j :| 0 <= j < n && VendorFor(s, init[j].vendor) == LastVendor(s, init)
                 && forall k :: j < k < n ==> VendorFor(s, init[k].vendor).None?;
        assert VendorFor(s, lis[j].vendor) == LastVendor(s, lis);
      }
    }
  }

  function VendorCostCenter(v: Option<VendorAccount>): string
  {
    if v.Some? then v.value.costCenter else ""
  }

  function VendorShippingAccount(v: Option<VendorAccount>): string
  {
    if v.Some? then v.value.shippingRevenueAccount else ""
  }

  /** The tax rows of the product line items, in order. The rows of line
      item i carry the cost centre of the last mapping found among line items
      0..i, else the setting's cost centre. */
  function ProductTaxRows(s: ShopifySetting, lis: seq<LineItem>, itemCode: LineItem -> string)
    : Result<seq<TaxRow>, TaxError>
    decreases |lis|
  {
    if lis == [] then Ok([])
    else
      match ProductTaxRows(s, lis[..|lis| - 1], itemCode)
      case Err(e) => Err(e)
      case Ok(prev) =>
        var li := lis[|lis| - 1];
        var costCenter := Or(VendorCostCenter(LastVendor(s, lis)), s.costCenter);
        match MapRows(li.taxLines, LineRowOf(s, itemCode(li), costCenter))
        case Err(e) => Err(e)
        case Ok(rows) => Ok(prev + rows)
  }

  lemma ProductTaxRowsStep(s: ShopifySetting, lis: seq<LineItem>, i: nat, itemCode: LineItem -> string)
    requires i < |lis|
    ensures ProductTaxRows(s, lis[..i + 1], itemCode) ==
              match ProductTaxRows(s, lis[..i], itemCode)
              case Err(e) => Err(e)
              case Ok(prev) =>
                match MapRows(lis[i].taxLines,
                              LineRowOf(s, itemCode(lis[i]),
                                        Or(VendorCostCenter(LastVendor(s, lis[..i + 1])), s.costCenter)))
                case Err(e) => Err(e)
                case Ok(rows) => Ok(prev + rows)
  {
    assert lis[..i + 1][..i] == lis[..i];
  }

  lemma {:induction false} ProductTaxRowsErrPrefix(s: ShopifySetting, lis: seq<LineItem>, k: nat,
                                                   itemCode: LineItem -> string)
    requires k <= |lis| && ProductTaxRows(s, lis[..k], itemCode).Err?
    ensures ProductTaxRows(s, lis, itemCode) == ProductTaxRows(s, lis[..k], itemCode)
    decreases |lis| - k
  {
    if k == |lis| {
      assert lis[..k] == lis;
    } else {
      ProductTaxRowsStep(s, lis, k, itemCode);
      ProductTaxRowsErrPrefix(s, lis, k + 1, itemCode);
    }
  }

  function LineItemTax(li: LineItem): real { TaxTotal(li.taxLines) }

  /** The product rows carry exactly the line items' tax prices, each row
      with a resolved account. */
  lemma {:induction false} ProductTaxRowsTotal(s: ShopifySetting, lis: seq<LineItem>, itemCode: LineItem -> string)
    ensures ProductTaxRows(s, lis, itemCode).Ok? ==>
              SumOf(ProductTaxRows(s, lis, itemCode).value, RowAmount) == SumOf(lis, LineItemTax)
              && AccountsResolved(ProductTaxRows(s, lis, itemCode).value)
    decreases |lis|
  {
    if lis != [] {
      var n := |lis| - 1;
      ProductTaxRowsTotal(s, lis[..n], itemCode);
      if ProductTaxRows(s, lis, itemCode).Ok? {
        var li := lis[n];
        var f := LineRowOf(s, itemCode(li), Or(VendorCostCenter(LastVendor(s, lis)), s.costCenter));
        MapRowsTotal(li.taxLines, f);
        var prev := ProductTaxRows(s, lis[..n], itemCode).value;
        var rows := MapRows(li.taxLines, f).value;
        SumOfAppend(prev, rows, RowAmount);
      }
    }
  }

  /** The rows of line item i in detail: one per tax line, in order, with the
      tax price as amount and `{item_code: [rate * 100, price]}` as detail. */
  lemma LineItemRows(s: ShopifySetting, li: LineItem, itemCode: string, costCenter: string)
    ensures var r := MapRows(li.taxLines, LineRowOf(s, itemCode, costCenter));
            && (r.Ok? <==> forall k :: 0 <= k < |li.taxLines| ==>
                             TaxAccountHead(s, li.taxLines[k].title, Some(SalesTax)).Ok?)
            && (r.Ok? ==>
                  |r.value| == |li.taxLines| &&
                  forall k :: 0 <= k < |li.taxLines| ==>
                    var tl := li.taxLines[k];
                    && r.value[k].accountHead == TaxAccountHead(s, tl.title, Some(SalesTax)).value
                    && r.value[k].taxAmount == tl.price
                    && r.value[k].costCenter == costCenter
                    && r.value[k].itemWiseTaxDetail == Some(map[itemCode := TaxDetail(tl.rate * 100.0, tl.price)]))
  {
    MapRowsSpec(li.taxLines, LineRowOf(s, itemCode, costCenter));
  }

  // ---------------------------------------------------------------------
  // Shipping lines

  /** A shipping charge net of its discounts and, when prices include tax,
      of its own tax lines. */
  function ShippingAmount(sl: ShippingLine, taxesInclusive: bool): real
  {
    sl.price - SumOf(sl.discountAllocations, Id) - (if taxesInclusive then TaxTotal(sl.taxLines) else 0.0)
  }

  /** The tax row for a priced shipping line booked as a charge. */
  function ShippingChargeRow(s: ShopifySetting, sl: ShippingLine, amount: real, vcenter: string)
    : Result<TaxRow, TaxError>
  {
    match TaxAccountHead(s, sl.title, Some(Shipping))
    case Err(e) => Err(e)
    case Ok(account) =>
      Ok(TaxRow(account, Text(Or(MappedTaxDescription(s, sl.title), sl.title)), amount,
                Or(vcenter, s.costCenter), None))
  }

  /** The row for one tax line of a shipping line: the vendor's shipping
      account when there is one, else the sales-tax account. */
  function ShippingTaxRow(s: ShopifySetting, tl: TaxLine, vsaccount: string, vcenter: string)
    : Result<TaxRow, TaxError>
  {
    var account := if vsaccount != "" then Ok(vsaccount) else TaxAccountHead(s, tl.title, Some(SalesTax));
    match account
    case Err(e) => Err(e)
    case Ok(head) =>
      Ok(TaxRow(head, TaxDescription(s, tl), tl.price, Or(vcenter, s.costCenter),
                Some(if ShippingAsItem(s) then map[s.shippingItem := TaxDetail(tl.rate * 100.0, tl.price)]
                     else map[])))
  }

  function ShippingRowOf(s: ShopifySetting, vsaccount: string, vcenter: string)
    : TaxLine -> Result<TaxRow, TaxError>
  {
    (tl: TaxLine) => ShippingTaxRow(s, tl, vsaccount, vcenter)
  }

  /** The tax rows of a shipping line in detail: one per tax line, in
      order, on the vendor's shipping account when there is one and else on
      the sales-tax account (failing only then), with the tax price as
      amount, `vcenter or cost_center` as cost center, and the detail
      `{shipping_item: [rate * 100, price]}` when shipping is an item, else
      empty. */
  lemma ShippingLineTaxRows(s: ShopifySetting, tls: seq<TaxLine>, vsaccount: string, vcenter: string)
    ensures var r := MapRows(tls, ShippingRowOf(s, vsaccount, vcenter));
            && (r.Ok? <==> vsaccount != "" || forall k :: 0 <= k < |tls| ==>
                             TaxAccountHead(s, tls[k].title, Some(SalesTax)).Ok?)
            && (r.Ok? ==>
                  |r.value| == |tls| &&
                  forall k :: 0 <= k < |tls| ==>
                    var tl := tls[k];
                    && (vsaccount != "" ==> r.value[k].accountHead == vsaccount)
                    && (vsaccount == "" ==>
                          TaxAccountHead(s, tl.title, Some(SalesTax)) == Ok(r.value[k].accountHead))
                    && r.value[k].taxAmount == tl.price
                    && r.value[k].costCenter == Or(vcenter, s.costCenter)
                    && r.value[k].itemWiseTaxDetail
                       == Some(if ShippingAsItem(s) then map[s.shippingItem := TaxDetail(tl.rate * 100.0, tl.price)]
                               else map[]))
  {
    MapRowsSpec(tls, ShippingRowOf(s, vsaccount, vcenter));
  }

  /** The order item for a priced shipping line when shipping is an item;
      its delivery date is that of the last item so far, else today. */
  function ShippingItemFor(s: ShopifySetting, amount: real, items: seq<OrderItem>, today: Date): OrderItem
  {
    ShippingItem(s.shippingItem, amount,
                 if items == [] then today else items[|items| - 1].deliveryDate,
                 1, "Nos", s.warehouse)
  }

  /** The charge row of a priced shipping line when shipping is not an item
      (none otherwise). */
  function PricedRows(s: ShopifySetting, sl: ShippingLine, vcenter: string, taxesInclusive: bool)
    : Result<seq<TaxRow>, TaxError>
  {
    if !sl.priced || ShippingAsItem(s) then Ok([])
    else
      match ShippingChargeRow(s, sl, ShippingAmount(sl, taxesInclusive), vcenter)
      case Err(e) => Err(e)
      case Ok(row) => Ok([row])
  }

  /** The shipping item of a priced shipping line when shipping is an item
      (none otherwise). */
  function PricedItems(s: ShopifySetting, sl: ShippingLine, items: seq<OrderItem>,
                       taxesInclusive: bool, today: Date): seq<OrderItem>
  {
    if sl.priced && ShippingAsItem(s)
    then [ShippingItemFor(s, ShippingAmount(sl, taxesInclusive), items, today)]
    else []
  }

  /** What one shipping line adds to the Sales Order: its priced part (an
      item or a charge row), then one row per tax line. */
  function ShippingLineStep(s: ShopifySetting, sl: ShippingLine, b: Booking, vsaccount: string,
                            vcenter: string, taxesInclusive: bool, today: Date)
    : Result<Booking, TaxError>
  {
    match PricedRows(s, sl, vcenter, taxesInclusive)
    case Err(e) => Err(e)
    case Ok(charge) =>
      match MapRows(sl.taxLines, ShippingRowOf(s, vsaccount, vcenter))
      case Err(e) => Err(e)
      case Ok(rows) =>
        Ok(Booking(b.taxes + charge + rows, b.items + PricedItems(s, sl, b.items, taxesInclusive, today)))
  }

  /** `update_taxes_with_shipping_lines` over a list of shipping lines. */
  function ShippingRows(s: ShopifySetting, sls: seq<ShippingLine>, b0: Booking, vsaccount: string,
                        vcenter: string, taxesInclusive: bool, today: Date)
    : Result<Booking, TaxError>
    decreases |sls|
  {
    if sls == [] then Ok(b0)
    else
      match ShippingRows(s, sls[..|sls| - 1], b0, vsaccount, vcenter, taxesInclusive, today)
      case Err(e) => Err(e)
      case Ok(b) => ShippingLineStep(s, sls[|sls| - 1], b, vsaccount, vcenter, taxesInclusive, today)
  }

  lemma ShippingRowsStep(s: ShopifySetting, sls: seq<ShippingLine>, i: nat, b0: Booking, vsaccount: string,
                         vcenter: string, taxesInclusive: bool, today: Date)
    requires i < |sls|
    ensures ShippingRows(s, sls[..i + 1], b0, vsaccount, vcenter, taxesInclusive, today) ==
              match ShippingRows(s, sls[..i], b0, vsaccount, vcenter, taxesInclusive, today)
              case Err(e) => Err(e)
              case Ok(b) => ShippingLineStep(s, sls[i], b, vsaccount, vcenter, taxesInclusive, today)
  {
    assert sls[..i + 1][..i] == sls[..i];
  }

  lemma {:induction false} ShippingRowsErrPrefix(s: ShopifySetting, sls: seq<ShippingLine>, k: nat, b0: Booking,
                                                 vsaccount: string, vcenter: string, taxesInclusive: bool, today: Date)
    requires k <= |sls| && ShippingRows(s, sls[..k], b0, vsaccount, vcenter, taxesInclusive, today).Err?
    ensures ShippingRows(s, sls, b0, vsaccount, vcenter, taxesInclusive, today)
            == ShippingRows(s, sls[..k], b0, vsaccount, vcenter, taxesInclusive, today)
    decreases |sls| - k
  {
    if k == |sls| {
      assert sls[..k] == sls;
    } else {
      ShippingRowsStep(s, sls, k, b0, vsaccount, vcenter, taxesInclusive, today);
      ShippingRowsErrPrefix(s, sls, k + 1, b0, vsaccount, vcenter, taxesInclusive, today);
    }
  }

  /** A priced shipping line's net charge (0 for an unpriced line). */
  function ChargeOf(taxesInclusive: bool): ShippingLine -> real
  {
    (sl: ShippingLine) => if !sl.priced then 0.0 else ShippingAmount(sl, taxesInclusive)
  }

  function ShippingTax(sl: ShippingLine): real { TaxTotal(sl.taxLines) }

  /** The priced part of a shipping line: its net charge goes to a row
      when shipping is not an item and to an item when it is. */
  lemma PricedPartTotals(s: ShopifySetting, sl: ShippingLine, items: seq<OrderItem>, vcenter: string,
                         taxesInclusive: bool, today: Date)
    ensures var p := PricedRows(s, sl, vcenter, taxesInclusive);
            p.Ok? ==>
              && AccountsResolved(p.value)
              && SumOf(p.value, RowAmount) == (if ShippingAsItem(s) then 0.0 else ChargeOf(taxesInclusive)(sl))
    ensures SumOf(PricedItems(s, sl, items, taxesInclusive, today), ItemRate)
            == (if ShippingAsItem(s) then ChargeOf(taxesInclusive)(sl) else 0.0)
    ensures !ShippingAsItem(s) ==> PricedItems(s, sl, items, taxesInclusive, today) == []
  {
    var p := PricedRows(s, sl, vcenter, taxesInclusive);
    if p.Ok? && p.value != [] { assert p.value[..0] == []; }
    var pi := PricedItems(s, sl, items, taxesInclusive, today);
    if pi != [] { assert pi[..0] == []; }
  }

  /** What one shipping line appends: its priced part, then one row per
      tax line. */
  lemma ShippingLineStepShape(s: ShopifySetting, sl: ShippingLine, b: Booking, vsaccount: string,
                              vcenter: string, taxesInclusive: bool, today: Date)
    ensures var r := ShippingLineStep(s, sl, b, vsaccount, vcenter, taxesInclusive, today);
            r.Ok? ==>
              && PricedRows(s, sl, vcenter, taxesInclusive).Ok?
              && MapRows(sl.taxLines, ShippingRowOf(s, vsaccount, vcenter)).Ok?
              && r.value.taxes == b.taxes + (PricedRows(s, sl, vcenter, taxesInclusive).value
                                             + MapRows(sl.taxLines, ShippingRowOf(s, vsaccount, vcenter)).value)
              && r.value.items == b.items + PricedItems(s, sl, b.items, taxesInclusive, today)
  {
  }

  /** What one shipping line adds: its priced part, then one row per tax
      line, all after what was there. */
  lemma ShippingLineStepTotals(s: ShopifySetting, sl: ShippingLine, b: Booking, vsaccount: string,
                               vcenter: string, taxesInclusive: bool, today: Date)
    ensures var r := ShippingLineStep(s, sl, b, vsaccount, vcenter, taxesInclusive, today);
            r.Ok? ==>
              && |b.taxes| <= |r.value.taxes| && r.value.taxes[..|b.taxes|] == b.taxes
              && |b.items| <= |r.value.items| && r.value.items[..|b.items|] == b.items
              && AccountsResolved(r.value.taxes[|b.taxes|..])
              && SumOf(r.value.taxes[|b.taxes|..], RowAmount)
                 == (if ShippingAsItem(s) then 0.0 else ChargeOf(taxesInclusive)(sl)) + ShippingTax(sl)
              && SumOf(r.value.items[|b.items|..], ItemRate)
                 == (if ShippingAsItem(s) then ChargeOf(taxesInclusive)(sl) else 0.0)
              && (!ShippingAsItem(s) ==> r.value.items == b.items)
  {
    var r := ShippingLineStep(s, sl, b, vsaccount, vcenter, taxesInclusive, today);
    ShippingLineStepShape(s, sl, b, vsaccount, vcenter, taxesInclusive, today);
    if r.Ok? {
      var f := ShippingRowOf(s, vsaccount, vcenter);
      var charge := PricedRows(s, sl, vcenter, taxesInclusive).value;
      var rows := MapRows(sl.taxLines, f).value;
      var added := PricedItems(s, sl, b.items, taxesInclusive, today);
      NewRowsTotals(s, sl, b, charge, rows, added, r.value, vsaccount, vcenter, taxesInclusive, today);
    }
  }

  /** The sums over the appended part of a shipping step. */
  lemma NewRowsTotals(s: ShopifySetting, sl: ShippingLine, b: Booking, charge: seq<TaxRow>, rows: seq<TaxRow>,
                      added: seq<OrderItem>, b': Booking, vsaccount: string, vcenter: string,
                      taxesInclusive: bool, today: Date)
    requires PricedRows(s, sl, vcenter, taxesInclusive) == Ok(charge)
    requires MapRows(sl.taxLines, ShippingRowOf(s, vsaccount, vcenter)) == Ok(rows)
    requires added == PricedItems(s, sl, b.items, taxesInclusive, today)
    requires b'.taxes == b.taxes + (charge + rows) && b'.items == b.items + added
    ensures |b.taxes| <= |b'.taxes| && b'.taxes[..|b.taxes|] == b.taxes
    ensures |b.items| <= |b'.items| && b'.items[..|b.items|] == b.items
    ensures AccountsResolved(b'.taxes[|b.taxes|..])
    ensures SumOf(b'.taxes[|b.taxes|..], RowAmount)
            == (if ShippingAsItem(s) then 0.0 else ChargeOf(taxesInclusive)(sl)) + ShippingTax(sl)
    ensures SumOf(b'.items[|b.items|..], ItemRate)
            == (if ShippingAsItem(s) then ChargeOf(taxesInclusive)(sl) else 0.0)
    ensures !ShippingAsItem(s) ==> b'.items == b.items
  {
    MapRowsTotal(sl.taxLines, ShippingRowOf(s, vsaccount, vcenter));
    PricedPartTotals(s, sl, b.items, vcenter, taxesInclusive, today);
    assert b'.taxes[|b.taxes|..] == charge + rows;
    assert b'.items[|b.items|..] == added;
    SumOfAppend(charge, rows, RowAmount);
    if !ShippingAsItem(s) {
      assert added == [];
      assert b'.items == b.items;
    }
  }

  /** For xs extending ys, a sum over xs from `lo` splits at |ys|. */
  lemma SumOfExtension<T>(xs: seq<T>, ys: seq<T>, lo: nat, f: T -> real)
    requires lo <= |ys| <= |xs| && xs[..|ys|] == ys
    ensures SumOf(xs[lo..], f) == SumOf(ys[lo..], f) + SumOf(xs[|ys|..], f)
  {
    assert xs[lo..] == ys[lo..] + xs[|ys|..];
    SumOfAppend(ys[lo..], xs[|ys|..], f);
  }

  lemma ResolvedExtension(xs: seq<TaxRow>, ys: seq<TaxRow>, lo: nat)
    requires lo <= |ys| <= |xs| && xs[..|ys|] == ys
    requires AccountsResolved(ys[lo..]) && AccountsResolved(xs[|ys|..])
    ensures AccountsResolved(xs[lo..])
  {
    assert xs[lo..] == ys[lo..] + xs[|ys|..];
  }

  /** `b` extends `b0`: the rows and items of `b0` come first in `b`. */
  predicate Extends(b0: Booking, b: Booking)
  {
    && |b0.taxes| <= |b.taxes| && b.taxes[..|b0.taxes|] == b0.taxes
    && |b0.items| <= |b.items| && b.items[..|b0.items|] == b0.items
  }

  lemma ExtendsTrans(b0: Booking, b1: Booking, b2: Booking)
    requires Extends(b0, b1) && Extends(b1, b2)
    ensures Extends(b0, b2)
  {
    assert b2.taxes[..|b0.taxes|] == b2.taxes[..|b1.taxes|][..|b0.taxes|];
    assert b2.items[..|b0.items|] == b2.items[..|b1.items|][..|b0.items|];
  }

  /** Shipping lines only add rows and items after those already present,
      and add no item when shipping is not an item. */
  lemma {:induction false} ShippingRowsKeep(s: ShopifySetting, sls: seq<ShippingLine>, b0: Booking,
                                            vsaccount: string, vcenter: string, taxesInclusive: bool,
                                            today: Date)
    ensures var r := ShippingRows(s, sls, b0, vsaccount, vcenter, taxesInclusive, today);
            r.Ok? ==> Extends(b0, r.value) && (!ShippingAsItem(s) ==> r.value.items == b0.items)
    decreases |sls|
  {
    var r := ShippingRows(s, sls, b0, vsaccount, vcenter, taxesInclusive, today);
    if sls == [] {
      assert b0.taxes[..|b0.taxes|] == b0.taxes && b0.items[..|b0.items|] == b0.items;
    } else if r.Ok? {
      var n := |sls| - 1;
      ShippingRowsKeep(s, sls[..n], b0, vsaccount, vcenter, taxesInclusive, today);
      var b := ShippingRows(s, sls[..n], b0, vsaccount, vcenter, taxesInclusive, today).value;
      ShippingLineStepTotals(s, sls[n], b, vsaccount, vcenter, taxesInclusive, today);
      ExtendsTrans(b0, b, r.value);
    }
  }

  /** Shipping is booked exactly once: every priced line's net charge goes to
      a shipping item when shipping is an item and to a tax row otherwise,
      and every shipping tax line adds its price as a row; every new row has
      a resolved account. */
  lemma {:induction false} ShippingRowsTotals(s: ShopifySetting, sls: seq<ShippingLine>, b0: Booking,
                                              vsaccount: string, vcenter: string, taxesInclusive: bool,
                                              today: Date)
    ensures var r := ShippingRows(s, sls, b0, vsaccount, vcenter, taxesInclusive, today);
            r.Ok? ==>
              && Extends(b0, r.value)
              && AccountsResolved(r.value.taxes[|b0.taxes|..])
              && SumOf(r.value.taxes[|b0.taxes|..], RowAmount)
                 == (if ShippingAsItem(s) then 0.0 else SumOf(sls, ChargeOf(taxesInclusive)))
                    + SumOf(sls, ShippingTax)
              && SumOf(r.value.items[|b0.items|..], ItemRate)
                 == (if ShippingAsItem(s) then SumOf(sls, ChargeOf(taxesInclusive)) else 0.0)
    decreases |sls|
  {
    var r := ShippingRows(s, sls, b0, vsaccount, vcenter, taxesInclusive, today);
    ShippingRowsKeep(s, sls, b0, vsaccount, vcenter, taxesInclusive, today);
    if sls == [] {
      assert b0.taxes[|b0.taxes|..] == [] && b0.items[|b0.items|..] == [];
    } else if r.Ok? {
      var n := |sls| - 1;
      ShippingRowsTotals(s, sls[..n], b0, vsaccount, vcenter, taxesInclusive, today);
      var b := ShippingRows(s, sls[..n], b0, vsaccount, vcenter, taxesInclusive, today).value;
      ShippingLineStepTotals(s, sls[n], b, vsaccount, vcenter, taxesInclusive, today);
      assert r.value == ShippingLineStep(s, sls[n], b, vsaccount, vcenter, taxesInclusive, today).value;
      SumOfExtension(r.value.taxes, b.taxes, |b0.taxes|, RowAmount);
      SumOfExtension(r.value.items, b.items, |b0.items|, ItemRate);
      ResolvedExtension(r.value.taxes, b.taxes, |b0.taxes|);
    }
  }

  /** A shipping line priced 20 with a
      discount of 5 and no tax lines, booked as a charge, yields exactly one
      tax row, of amount 15. */
  lemma ShippingChargeExample(s: ShopifySetting, vsaccount: string, vcenter: string, today: Date)
    requires !ShippingAsItem(s) && s.defaultShippingChargesAccount != ""
    ensures var sl := ShippingLine("Standard", true, 20.0, [5.0], []);
            var r := ShippingRows(s, [sl], Booking([], []), vsaccount, vcenter, false, today);
            r.Ok? && |r.value.taxes| == 1 && r.value.taxes[0].taxAmount == 15.0 && r.value.items == []
  {
    var sl := ShippingLine("Standard", true, 20.0, [5.0], []);
    assert [sl][..0] == [];
    assert sl.discountAllocations[..0] == [];
  }

  /** A free shipping line whose price is present ("0.00") is still priced:
      booked as a charge, it yields a row of amount 0, and the whole step
      fails when no shipping account can be found for it. */
  lemma FreeShippingCharged(s: ShopifySetting, vsaccount: string, vcenter: string, today: Date)
    requires !ShippingAsItem(s)
    ensures var sl := ShippingLine("Free", true, 0.0, [], []);
            var r := ShippingRows(s, [sl], Booking([], []), vsaccount, vcenter, false, today);
            && (r.Ok? <==> TaxAccountHead(s, "Free", Some(Shipping)).Ok?)
            && (r.Ok? ==> |r.value.taxes| == 1 && r.value.taxes[0].taxAmount == 0.0)
  {
    var sl := ShippingLine("Free", true, 0.0, [], []);
    assert [sl][..0] == [];
  }

  // ---------------------------------------------------------------------
  // Consolidation by account head

  /** The distinct account heads in first-occurrence order (the key order of
      the dictionary the source fills). */
  function Heads(rows: seq<TaxRow>): seq<string>
    decreases |rows|
  {
    if rows == [] then []
    else
      var p := Heads(rows[..|rows| - 1]);
      var h := rows[|rows| - 1].accountHead;
      if h in p then p else p + [h]
  }

  function HeadTotal(rows: seq<TaxRow>, h: string): real
    decreases |rows|
  {
    if rows == [] then 0.0
    else
      var r := rows[|rows| - 1];
      HeadTotal(rows[..|rows| - 1], h) + (if r.accountHead == h then r.taxAmount else 0.0)
  }

  function DetailOf(r: TaxRow): map<string, TaxDetail>
  {
    if r.itemWiseTaxDetail.Some? then r.itemWiseTaxDetail.value else map[]
  }

  /** The detail maps of a head's rows merged in order; later keys win. */
  function HeadDetail(rows: seq<TaxRow>, h: string): map<string, TaxDetail>
    decreases |rows|
  {
    if rows == [] then map[]
    else
      var r := rows[|rows| - 1];
      if r.accountHead == h then HeadDetail(rows[..|rows| - 1], h) + DetailOf(r)
      else HeadDetail(rows[..|rows| - 1], h)
  }

  /** The first row with account head `h`. */
  function FirstWith(rows: seq<TaxRow>, h: string): TaxRow
    requires h in Heads(rows)
    decreases |rows|
  {
    var init := rows[..|rows| - 1];
    if h in Heads(init) then FirstWith(init, h) else rows[|rows| - 1]
  }

  function ConsolidatedRow(rows: seq<TaxRow>, h: string): TaxRow
    requires h in Heads(rows)
  {
    var first := FirstWith(rows, h);
    TaxRow(h, first.description, HeadTotal(rows, h), first.costCenter, Some(HeadDetail(rows, h)))
  }

  /** `consolidate_order_taxes`: one row per account head. */
  function Consolidated(rows: seq<TaxRow>): seq<TaxRow>
  {
    var heads := Heads(rows);
    seq(|heads|, k requires 0 <= k < |heads| => ConsolidatedRow(rows, heads[k]))
  }

  predicate Distinct(hs: seq<string>)
  {
    forall i, j :: 0 <= i < j < |hs| ==> hs[i] != hs[j]
  }

  /** The heads are distinct and are exactly the heads of the rows. */
  lemma {:induction false} HeadsMembers(rows: seq<TaxRow>)
    ensures Distinct(Heads(rows))
    ensures forall h :: h in Heads(rows) <==> exists j :: 0 <= j < |rows| && rows[j].accountHead == h
    decreases |rows|
  {
    if rows != [] {
      var n := |rows| - 1;
      var init := rows[..n];
      HeadsMembers(init);
      var p := Heads(init);
      forall h
        ensures h in Heads(rows) <==> exists j :: 0 <= j < |rows| && rows[j].accountHead == h
      {
        if h in p {
          var j :| 0 <= j < |init| && init[j].accountHead == h;
          assert rows[j].accountHead == h;
        }
        if exists j :: 0 <= j < |rows| && rows[j].accountHead == h {
          var j :| 0 <= j < |rows| && rows[j].accountHead == h;
          if j < n {
            assert init[j].accountHead == h;
            assert h in p;
          } else {
            assert h == rows[n].accountHead;
          }
        }
      }
    }
  }

  /** Each head's consolidated row is keyed by the first row carrying it. */
  lemma {:induction false} HeadsFirst(rows: seq<TaxRow>)
    ensures forall h :: h in Heads(rows) ==>
              exists j :: 0 <= j < |rows| && rows[j] == FirstWith(rows, h)
                          && rows[j].accountHead == h
                          && forall i :: 0 <= i < j ==> rows[i].accountHead != h
    decreases |rows|
  {
    if rows != [] {
      var n := |rows| - 1;
      var init := rows[..n];
      var last := rows[n];
      HeadsFirst(init);
      HeadsMembers(init);
      assert forall k :: 0 <= k < n ==> init[k] == rows[k];
      var p := Heads(init);
      forall h | h in Heads(rows)
        ensures exists j :: 0 <= j < |rows| && rows[j] == FirstWith(rows, h)
                            && rows[j].accountHead == h
                            && forall i :: 0 <= i < j ==> rows[i].accountHead != h
      {
        if h in p {
          var j :| 0 <= j < n && init[j] == FirstWith(init, h) && init[j].accountHead == h
                   && forall i :: 0 <= i < j ==> init[i].accountHead != h;
          assert rows[j] == FirstWith(rows, h);
        } else {
          assert h == last.accountHead;
          assert rows[n] == FirstWith(rows, h);
        }
      }
    }
  }

  /** The order of the heads, stated for one pair of heads. */
  ghost predicate SeenBefore(rows: seq<TaxRow>, a: string, b: string)
  {
    forall j :: 0 <= j < |rows| && rows[j].accountHead == b ==>
      exists i :: 0 <= i < j && rows[i].accountHead == a
  }

  /** The heads come in the order of their first occurrence: every row of
      a later head is preceded by a row of each earlier head. */
  lemma {:induction false} HeadsOrder(rows: seq<TaxRow>)
    ensures forall a, b :: 0 <= a < b < |Heads(rows)| ==> SeenBefore(rows, Heads(rows)[a], Heads(rows)[b])
    decreases |rows|
  {
    if rows != [] {
      var n := |rows| - 1;
      var init := rows[..n];
      HeadsOrder(init);
      HeadsMembers(init);
      var hs := Heads(rows);
      forall a, b | 0 <= a < b < |hs|
        ensures SeenBefore(rows, hs[a], hs[b])
      {
        HeadsOrderStep(rows, a, b);
      }
    }
  }

  /** One pair of heads of `rows`, given the order on all rows but the
      last. */
  lemma HeadsOrderStep(rows: seq<TaxRow>, a: nat, b: nat)
    requires rows != [] && a < b < |Heads(rows)|
    requires var init := rows[..|rows| - 1];
             && Distinct(Heads(init))
             && (forall h :: h in Heads(init) <==> exists j :: 0 <= j < |init| && init[j].accountHead == h)
             && forall x, y :: 0 <= x < y < |Heads(init)| ==> SeenBefore(init, Heads(init)[x], Heads(init)[y])
    ensures SeenBefore(rows, Heads(rows)[a], Heads(rows)[b])
  {
    var n := |rows| - 1;
    var init := rows[..n];
    var last := rows[n].accountHead;
    var p := Heads(init);
    assert a < |p| && p[a] in p;
    if last in p {
      assert p[b] in p;
      var jj :| 0 <= jj < n && init[jj].accountHead == p[b];
      assert rows[jj] == init[jj];
      SeenBeforeSnoc(rows, p[a], p[b]);
    } else if b == |p| {
      var i0 :| 0 <= i0 < n && init[i0].accountHead == p[a];
      assert rows[i0] == init[i0];
      forall j | 0 <= j < n
        ensures rows[j].accountHead != last
      {
        assert init[j] == rows[j];
      }
      SeenBeforeLast(rows, p[a], last, i0);
    } else {
      assert p[b] in p;
      SeenBeforeSnoc(rows, p[a], p[b]);
    }
  }

  /** A row appended after `y`'s first occurrence keeps `x` before `y`. */
  lemma SeenBeforeSnoc(rows: seq<TaxRow>, x: string, y: string)
    requires rows != []
    requires SeenBefore(rows[..|rows| - 1], x, y)
    requires rows[|rows| - 1].accountHead == y ==>
               exists jj :: 0 <= jj < |rows| - 1 && rows[jj].accountHead == y
    ensures SeenBefore(rows, x, y)
  {
    var n := |rows| - 1;
    var init := rows[..n];
    forall j | 0 <= j < |rows| && rows[j].accountHead == y
      ensures exists i :: 0 <= i < j && rows[i].accountHead == x
    {
      var k := j;
      if j == n {
        k :| 0 <= k < n && rows[k].accountHead == y;
      }
      assert init[k] == rows[k];
      var i :| 0 <= i < k && init[i].accountHead == x;
      assert init[i] == rows[i];
    }
  }

  /** A head met only in the last row is preceded by any earlier head. */
  lemma SeenBeforeLast(rows: seq<TaxRow>, x: string, y: string, i0: nat)
    requires i0 < |rows| - 1 && rows[i0].accountHead == x
    requires forall j :: 0 <= j < |rows| - 1 ==> rows[j].accountHead != y
    ensures SeenBefore(rows, x, y)
  {
    forall j | 0 <= j < |rows| && rows[j].accountHead == y
      ensures exists i :: 0 <= i < j && rows[i].accountHead == x
    {
      assert j == |rows| - 1;
      assert i0 < j;
    }
  }

  /** The heads are distinct, are exactly the heads of the rows, and come in
      the order of their first occurrence; each consolidated row takes its
      description and cost centre from the head's first row. */
  lemma HeadsSpec(rows: seq<TaxRow>)
    ensures Distinct(Heads(rows))
    ensures forall h :: h in Heads(rows) <==> exists j :: 0 <= j < |rows| && rows[j].accountHead == h
    ensures forall a, b :: 0 <= a < b < |Heads(rows)| ==>
              forall j :: 0 <= j < |rows| && rows[j].accountHead == Heads(rows)[b] ==>
                exists i :: 0 <= i < j && rows[i].accountHead == Heads(rows)[a]
    ensures forall h :: h in Heads(rows) ==>
              exists j :: 0 <= j < |rows| && rows[j] == FirstWith(rows, h)
                          && rows[j].accountHead == h
                          && forall i :: 0 <= i < j ==> rows[i].accountHead != h
  {
    HeadsMembers(rows);
    HeadsOrder(rows);
    HeadsFirst(rows);
  }

  /** A head that no row carries totals 0. */
  lemma {:induction false} HeadTotalAbsent(rows: seq<TaxRow>, h: string)
    requires forall j :: 0 <= j < |rows| ==> rows[j].accountHead != h
    ensures HeadTotal(rows, h) == 0.0
    decreases |rows|
  {
    if rows != [] {
      HeadTotalAbsent(rows[..|rows| - 1], h);
    }
  }

  /** The sum of the head totals over a list of heads. */
  function TotalOver(heads: seq<string>, rows: seq<TaxRow>): real
    decreases |heads|
  {
    if heads == [] then 0.0
    else TotalOver(heads[..|heads| - 1], rows) + HeadTotal(rows, heads[|heads| - 1])
  }

  /** Adding a row raises the total over distinct heads by its amount when
      its head is one of them, and leaves it unchanged otherwise. */
  lemma {:induction false} TotalOverAddRow(heads: seq<string>, rows: seq<TaxRow>, r: TaxRow)
    requires Distinct(heads)
    ensures TotalOver(heads, rows + [r])
            == TotalOver(heads, rows) + (if r.accountHead in heads then r.taxAmount else 0.0)
    decreases |heads|
  {
    assert (rows + [r])[..|rows|] == rows;
    if heads != [] {
      var n := |heads| - 1;
      TotalOverAddRow(heads[..n], rows, r);
      assert r.accountHead in heads <==> r.accountHead in heads[..n] || r.accountHead == heads[n];
    }
  }

  lemma {:induction false} SumConsolidatedRows(heads: seq<string>, rows: seq<TaxRow>)
    requires forall h :: h in heads ==> h in Heads(rows)
    ensures SumOf(seq(|heads|, k requires 0 <= k < |heads| => ConsolidatedRow(rows, heads[k])), RowAmount)
            == TotalOver(heads, rows)
    decreases |heads|
  {
    var cs := seq(|heads|, k requires 0 <= k < |heads| => ConsolidatedRow(rows, heads[k]));
    if heads != [] {
      var n := |heads| - 1;
      SumConsolidatedRows(heads[..n], rows);
      assert cs[..n] == seq(n, k requires 0 <= k < n => ConsolidatedRow(rows, heads[..n][k]));
    }
  }

  /** The consolidated rows hold the same grand total as the rows they
      replace. */
  lemma {:induction false} ConsolidatedTotal(rows: seq<TaxRow>)
    ensures SumOf(Consolidated(rows), RowAmount) == SumOf(rows, RowAmount)
  {
    SumConsolidatedRows(Heads(rows), rows);
    HeadsTotal(rows);
  }

  lemma {:induction false} HeadsTotal(rows: seq<TaxRow>)
    ensures TotalOver(Heads(rows), rows) == SumOf(rows, RowAmount)
    decreases |rows|
  {
    if rows != [] {
      var n := |rows| - 1;
      var init := rows[..n];
      var r := rows[n];
      assert rows == init + [r];
      HeadsTotal(init);
      HeadsSpec(init);
      var p := Heads(init);
      TotalOverAddRow(p, init, r);
      if r.accountHead !in p {
        assert Heads(rows) == p + [r.accountHead];
        assert (p + [r.accountHead])[..|p|] == p;
        HeadTotalAbsent(init, r.accountHead);
        assert HeadTotal(rows, r.accountHead) == r.taxAmount;
        TotalOverAddRow(p, init, r);
      }
    }
  }

  /** The merged detail of a head holds exactly the keys of its rows' detail
      maps. */
  lemma {:induction false} HeadDetailKeys(rows: seq<TaxRow>, h: string, x: string)
    ensures x in HeadDetail(rows, h) <==>
              exists j :: 0 <= j < |rows| && rows[j].accountHead == h && x in DetailOf(rows[j])
    decreases |rows|
  {
    if rows != [] {
      var n := |rows| - 1;
      var init := rows[..n];
      HeadDetailKeys(init, h, x);
      if x in HeadDetail(init, h) {
        var j :| 0 <= j < n && init[j].accountHead == h && x in DetailOf(init[j]);
        assert rows[j] == init[j];
      }
      if exists j :: 0 <= j < |rows| && rows[j].accountHead == h && x in DetailOf(rows[j]) {
        var j :| 0 <= j < |rows| && rows[j].accountHead == h && x in DetailOf(rows[j]);
        if j < n { assert init[j] == rows[j]; }
      }
    }
  }

  /** A key of the merged detail takes its value from the last row of the
      head whose detail has that key. */
  lemma {:induction false} HeadDetailLastWins(rows: seq<TaxRow>, h: string, x: string, j: nat)
    requires j < |rows| && rows[j].accountHead == h && x in DetailOf(rows[j])
    requires forall k :: j < k < |rows| && rows[k].accountHead == h ==> x !in DetailOf(rows[k])
    ensures x in HeadDetail(rows, h) && HeadDetail(rows, h)[x] == DetailOf(rows[j])[x]
    decreases |rows|
  {
    var n := |rows| - 1;
    var init := rows[..n];
    if j < n {
      assert init[j] == rows[j];
      forall k | j < k < n && init[k].accountHead == h ensures x !in DetailOf(init[k]) {
        assert init[k] == rows[k];
      }
      HeadDetailLastWins(init, h, x, j);
    }
  }

  /** Consolidation keeps the accounts resolved. */
  lemma ConsolidatedResolved(rows: seq<TaxRow>)
    requires AccountsResolved(rows)
    ensures AccountsResolved(Consolidated(rows))
  {
    HeadsSpec(rows);
    var cs := Consolidated(rows);
    forall k | 0 <= k < |cs| ensures cs[k].accountHead != "" {
      var h := Heads(rows)[k];
      assert h in Heads(rows);
      var j :| 0 <= j < |rows| && rows[j].accountHead == h;
    }
  }

  // ---------------------------------------------------------------------
  // get_order_taxes

  /** `get_order_taxes`: product rows, then shipping, then consolidation
      when the setting asks for it. */
  function OrderTaxes(s: ShopifySetting, order: Order, items: seq<OrderItem>,
                      itemCode: LineItem -> string, today: Date)
    : Result<Booking, TaxError>
  {
    match Unconsolidated(s, order, items, itemCode, today)
    case Err(e) => Err(e)
    case Ok(b) => Ok(if s.consolidateTaxes then Booking(Consolidated(b.taxes), b.items) else b)
  }

  /** The product rows followed by the shipping rows, before the optional
      consolidation. */
  function Unconsolidated(s: ShopifySetting, order: Order, items: seq<OrderItem>,
                          itemCode: LineItem -> string, today: Date)
    : Result<Booking, TaxError>
  {
    match ProductTaxRows(s, order.lineItems, itemCode)
    case Err(e) => Err(e)
    case Ok(rows) =>
      var v := LastVendor(s, order.lineItems);
      ShippingRows(s, order.shippingLines, Booking(rows, items), VendorShippingAccount(v),
                   VendorCostCenter(v), order.taxesIncluded, today)
  }

  /** Before consolidation the rows total the product taxes, the shipping
      taxes and, unless shipping is an item, the net shipping charges. */
  lemma UnconsolidatedTotal(s: ShopifySetting, order: Order, items: seq<OrderItem>,
                            itemCode: LineItem -> string, today: Date)
    ensures var r := Unconsolidated(s, order, items, itemCode, today);
            r.Ok? ==>
              SumOf(r.value.taxes, RowAmount)
              == SumOf(order.lineItems, LineItemTax)
                 + (if ShippingAsItem(s) then 0.0 else SumOf(order.shippingLines, ChargeOf(order.taxesIncluded)))
                 + SumOf(order.shippingLines, ShippingTax)
  {
    var r := Unconsolidated(s, order, items, itemCode, today);
    if r.Ok? {
      ProductTaxRowsTotal(s, order.lineItems, itemCode);
      var rows := ProductTaxRows(s, order.lineItems, itemCode).value;
      var v := LastVendor(s, order.lineItems);
      var b0 := Booking(rows, items);
      ShippingRowsTotals(s, order.shippingLines, b0, VendorShippingAccount(v), VendorCostCenter(v),
                         order.taxesIncluded, today);
      var b := r.value;
      assert b.taxes == rows + b.taxes[|rows|..];
      SumOfAppend(rows, b.taxes[|rows|..], RowAmount);
    }
  }

  /** The rows of a built order, consolidated or not, total the product
      taxes, the shipping taxes and, unless shipping is an item, the net
      shipping charges. */
  lemma OrderTaxesTotal(s: ShopifySetting, order: Order, items: seq<OrderItem>,
                        itemCode: LineItem -> string, today: Date)
    ensures var r := OrderTaxes(s, order, items, itemCode, today);
            r.Ok? ==>
              SumOf(r.value.taxes, RowAmount)
              == SumOf(order.lineItems, LineItemTax)
                 + (if ShippingAsItem(s) then 0.0 else SumOf(order.shippingLines, ChargeOf(order.taxesIncluded)))
                 + SumOf(order.shippingLines, ShippingTax)
  {
    var u := Unconsolidated(s, order, items, itemCode, today);
    if u.Ok? {
      UnconsolidatedTotal(s, order, items, itemCode, today);
      if s.consolidateTaxes {
        ConsolidatedTotal(u.value.taxes);
      }
    }
  }

  /** Every tax row of a built order has a resolved account. */
  lemma OrderTaxesResolved(s: ShopifySetting, order: Order, items: seq<OrderItem>,
                           itemCode: LineItem -> string, today: Date)
    ensures var r := OrderTaxes(s, order, items, itemCode, today);
            r.Ok? ==> AccountsResolved(r.value.taxes)
  {
    var u := Unconsolidated(s, order, items, itemCode, today);
    if u.Ok? {
      ProductTaxRowsTotal(s, order.lineItems, itemCode);
      var rows := ProductTaxRows(s, order.lineItems, itemCode).value;
      var v := LastVendor(s, order.lineItems);
      ShippingRowsTotals(s, order.shippingLines, Booking(rows, items), VendorShippingAccount(v),
                         VendorCostCenter(v), order.taxesIncluded, today);
      var b := u.value;
      assert AccountsResolved(b.taxes) by {
        assert b.taxes == rows + b.taxes[|rows|..];
      }
      if s.consolidateTaxes {
        ConsolidatedResolved(b.taxes);
      }
    }
  }

  /** `get_order_taxes` keeps the items it is given and only appends. */
  lemma OrderTaxesKeepItems(s: ShopifySetting, order: Order, items: seq<OrderItem>,
                            itemCode: LineItem -> string, today: Date)
    ensures var r := OrderTaxes(s, order, items, itemCode, today);
            r.Ok? ==> |items| <= |r.value.items| && r.value.items[..|items|] == items
  {
    var u := Unconsolidated(s, order, items, itemCode, today);
    if u.Ok? {
      var rows := ProductTaxRows(s, order.lineItems, itemCode).value;
      var v := LastVendor(s, order.lineItems);
      ShippingRowsKeep(s, order.shippingLines, Booking(rows, items), VendorShippingAccount(v),
                       VendorCostCenter(v), order.taxesIncluded, today);
    }
  }

  // ---------------------------------------------------------------------
  // The source's loops

  /** What one more row does to the consolidated row of each head: a new
      head starts from the row's description and cost centre, a known head
      adds the row's amount and detail, and other heads are unchanged. */
  lemma ConsolidatedRowStep(rows: seq<TaxRow>, r: TaxRow, h: string)
    requires h in Heads(rows + [r])
    ensures var c := ConsolidatedRow(rows + [r], h);
            if h != r.accountHead then h in Heads(rows) && c == ConsolidatedRow(rows, h)
            else if h in Heads(rows) then
              var old_ := ConsolidatedRow(rows, h);
              c == old_.(taxAmount := old_.taxAmount + r.taxAmount,
                         itemWiseTaxDetail := Some(old_.itemWiseTaxDetail.value + DetailOf(r)))
            else c == TaxRow(h, r.description, r.taxAmount, r.costCenter, Some(DetailOf(r)))
  {
    var rs := rows + [r];
    assert rs[..|rs| - 1] == rows;
    if h == r.accountHead && h !in Heads(rows) {
      HeadsSpec(rows);
      HeadTotalAbsent(rows, h);
      HeadDetailAbsent(rows, h);
      assert map[] + DetailOf(r) == DetailOf(r);
    }
  }

  lemma {:induction false} HeadDetailAbsent(rows: seq<TaxRow>, h: string)
    requires forall j :: 0 <= j < |rows| ==> rows[j].accountHead != h
    ensures HeadDetail(rows, h) == map[]
    decreases |rows|
  {
    if rows != [] {
      HeadDetailAbsent(rows[..|rows| - 1], h);
    }
  }

  /** The dictionary of `consolidate_order_taxes` after some rows: its
      keys, in insertion order, are the heads of those rows, and each entry
      is the consolidated row of its head. */
  ghost predicate ConsolidationState(rows: seq<TaxRow>, keys: seq<string>, byAccount: map<string, TaxRow>)
  {
    && keys == Heads(rows)
    && (forall h :: h in byAccount <==> h in keys)
    && (forall h :: h in keys ==> byAccount[h] == ConsolidatedRow(rows, h))
  }

  /** The entry for a row's head before the row is added: the existing one,
      else the `setdefault` value. */
  function EntryFor(byAccount: map<string, TaxRow>, tax: TaxRow): TaxRow
  {
    if tax.accountHead in byAccount then byAccount[tax.accountHead]
    else TaxRow(tax.accountHead, tax.description, 0.0, tax.costCenter, Some(map[]))
  }

  /** The dictionary after absorbing one row: the row's entry (created by
      `setdefault` when missing) gains its amount and its detail. */
  function Absorbed(byAccount: map<string, TaxRow>, tax: TaxRow): map<string, TaxRow>
  {
    var row := EntryFor(byAccount, tax);
    byAccount[tax.accountHead := row.(taxAmount := row.taxAmount + tax.taxAmount,
                                      itemWiseTaxDetail := Some(DetailOf(row) + DetailOf(tax)))]
  }

  /** The key order after absorbing one row: a new head goes last. */
  function KeysAfter(keys: seq<string>, byAccount: map<string, TaxRow>, tax: TaxRow): seq<string>
  {
    if tax.accountHead in byAccount then keys else keys + [tax.accountHead]
  }

  /** Adding one row to the dictionary keeps it the consolidation of the
      rows seen so far. */
  lemma AbsorbStep(rows: seq<TaxRow>, tax: TaxRow, keys: seq<string>, byAccount: map<string, TaxRow>)
    requires ConsolidationState(rows, keys, byAccount)
    ensures ConsolidationState(rows + [tax], KeysAfter(keys, byAccount, tax), Absorbed(byAccount, tax))
  {
    var h := tax.accountHead;
    var rs := rows + [tax];
    assert rs[..|rs| - 1] == rows;
    ConsolidatedRowStep(rows, tax, h);
    if h !in byAccount {
      assert map[] + DetailOf(tax) == DetailOf(tax);
    }
    forall g | g in Heads(rs) && g != h ensures ConsolidatedRow(rs, g) == ConsolidatedRow(rows, g) {
      ConsolidatedRowStep(rows, tax, g);
    }
  }

  /** Reading the dictionary's values in key order gives the consolidated
      rows. */
  lemma ConsolidationValues(rows: seq<TaxRow>, keys: seq<string>, byAccount: map<string, TaxRow>)
    requires ConsolidationState(rows, keys, byAccount)
    ensures seq(|keys|, k requires 0 <= k < |keys| => byAccount[keys[k]]) == Consolidated(rows)
  {
  }

  /** One iteration of `consolidate_order_taxes`: `setdefault` the row's
      entry, add its amount, merge its detail when it has one. */
  method AbsorbRow(keys: seq<string>, byAccount: map<string, TaxRow>, tax: TaxRow)
    returns (keys': seq<string>, byAccount': map<string, TaxRow>)
    ensures keys' == KeysAfter(keys, byAccount, tax)
    ensures byAccount' == Absorbed(byAccount, tax)
  {
    var head := tax.accountHead;
    keys' := keys;
    byAccount' := byAccount;
    if head !in byAccount' {
      byAccount' := byAccount'[head := TaxRow(head, tax.description, 0.0, tax.costCenter, Some(map[]))];
      keys' := keys' + [head];
    }
    var row := byAccount'[head];
    var detail := DetailOf(row);
    if tax.itemWiseTaxDetail.Some? && tax.itemWiseTaxDetail.value != map[] {
      detail := detail + tax.itemWiseTaxDetail.value;
    } else {
      assert detail + DetailOf(tax) == detail;
    }
    byAccount' := byAccount'[head := row.(taxAmount := row.taxAmount + tax.taxAmount,
                                          itemWiseTaxDetail := Some(detail))];
  }

  /** `consolidate_order_taxes`: a dictionary keyed by account head, in
      insertion order, accumulating amounts and merging details. */
  method ConsolidateOrderTaxes(taxes: seq<TaxRow>) returns (consolidated: seq<TaxRow>)
    ensures consolidated == Consolidated(taxes)
  {
    var byAccount: map<string, TaxRow> := map[];
    var keys: seq<string> := [];
    var i := 0;
    while i < |taxes|
      invariant 0 <= i <= |taxes|
      invariant ConsolidationState(taxes[..i], keys, byAccount)
    {
      AbsorbStep(taxes[..i], taxes[i], keys, byAccount);
      keys, byAccount := AbsorbRow(keys, byAccount, taxes[i]);
      assert taxes[..i + 1] == taxes[..i] + [taxes[i]];
      i := i + 1;
    }
    assert taxes[..i] == taxes;
    consolidated := seq(|keys|, k requires 0 <= k < |keys| => byAccount[keys[k]]);
    ConsolidationValues(taxes, keys, byAccount);
  }

  /** The inner loop of `get_order_taxes`: one row per tax line of a line
      item, appended to `taxes`. */
  method AppendLineItemRows(s: ShopifySetting, li: LineItem, code: string, costCenter: string,
                            taxes0: seq<TaxRow>)
    returns (r: Result<seq<TaxRow>, TaxError>)
    ensures r == match MapRows(li.taxLines, LineRowOf(s, code, costCenter))
                 case Err(e) => Err(e)
                 case Ok(rows) => Ok(taxes0 + rows)
  {
    ghost var f := LineRowOf(s, code, costCenter);
    var taxes := taxes0;
    ghost var added: seq<TaxRow> := [];
    var j := 0;
    while j < |li.taxLines|
      invariant 0 <= j <= |li.taxLines|
      invariant taxes == taxes0 + added
      invariant MapRows(li.taxLines[..j], f) == Ok(added)
    {
      var tax := li.taxLines[j];
      MapRowsStep(li.taxLines, j, f);
      var head := TaxAccountHead(s, tax.title, Some(SalesTax));
      if head.Err? {
        MapRowsErrPrefix(li.taxLines, j + 1, f);
        return Err(head.error);
      }
      var row := TaxRow(head.value, TaxDescription(s, tax), tax.price, costCenter,
                        Some(map[code := TaxDetail(tax.rate * 100.0, tax.price)]));
      taxes := taxes + [row];
      added := added + [row];
      j := j + 1;
    }
    assert li.taxLines[..j] == li.taxLines;
    r := Ok(taxes);
  }

  /** The inner loop of `update_taxes_with_shipping_lines`: one row per tax
      line of a shipping line, appended to `taxes`. */
  method AppendShippingTaxRows(s: ShopifySetting, tls: seq<TaxLine>, taxes0: seq<TaxRow>,
                               vsaccount: string, vcenter: string)
    returns (r: Result<seq<TaxRow>, TaxError>)
    ensures r == match MapRows(tls, ShippingRowOf(s, vsaccount, vcenter))
                 case Err(e) => Err(e)
                 case Ok(rows) => Ok(taxes0 + rows)
  {
    var shippingAsItem := ShippingAsItem(s);
    ghost var f := ShippingRowOf(s, vsaccount, vcenter);
    var taxes := taxes0;
    ghost var added: seq<TaxRow> := [];
    var j := 0;
    while j < |tls|
      invariant 0 <= j <= |tls|
      invariant taxes == taxes0 + added
      invariant MapRows(tls[..j], f) == Ok(added)
    {
      var tax := tls[j];
      MapRowsStep(tls, j, f);
      var head: string;
      if vsaccount != "" {
        head := vsaccount;
      } else {
        var resolved := TaxAccountHead(s, tax.title, Some(SalesTax));
        if resolved.Err? {
          MapRowsErrPrefix(tls, j + 1, f);
          return Err(resolved.error);
        }
        head := resolved.value;
      }
      var detail := if shippingAsItem then map[s.shippingItem := TaxDetail(tax.rate * 100.0, tax.price)]
                    else map[];
      var row := TaxRow(head, TaxDescription(s, tax), tax.price, Or(vcenter, s.costCenter), Some(detail));
      taxes := taxes + [row];
      added := added + [row];
      j := j + 1;
    }
    assert tls[..j] == tls;
    r := Ok(taxes);
  }

  /** The body of the loop of `update_taxes_with_shipping_lines` for one
      shipping line: the priced part, then one row per tax line. */
  method AddShippingLine(s: ShopifySetting, sl: ShippingLine, b: Booking, vsaccount: string,
                         vcenter: string, taxesInclusive: bool, today: Date)
    returns (r: Result<Booking, TaxError>)
    ensures r == ShippingLineStep(s, sl, b, vsaccount, vcenter, taxesInclusive, today)
  {
    var shippingAsItem := ShippingAsItem(s);
    var taxes, items := b.taxes, b.items;
    var charge: seq<TaxRow> := [];
    if sl.priced {
      var totalDiscount := SumOf(sl.discountAllocations, Id);
      var totalTax := TaxTotal(sl.taxLines);
      var amount := sl.price - totalDiscount;
      if taxesInclusive {
        amount := amount - totalTax;
      }
      assert amount == ShippingAmount(sl, taxesInclusive);
      if shippingAsItem {
        var date := if items == [] then today else items[|items| - 1].deliveryDate;
        items := items + [ShippingItem(s.shippingItem, amount, date, 1, "Nos", s.warehouse)];
      } else {
        var head := TaxAccountHead(s, sl.title, Some(Shipping));
        if head.Err? {
          return Err(head.error);
        }
        charge := [TaxRow(head.value, Text(Or(MappedTaxDescription(s, sl.title), sl.title)),
                          amount, Or(vcenter, s.costCenter), None)];
        taxes := taxes + charge;
      }
    }
    assert taxes == b.taxes + charge;
    assert PricedRows(s, sl, vcenter, taxesInclusive) == Ok(charge);
    assert items == b.items + PricedItems(s, sl, b.items, taxesInclusive, today);
    var withTaxes := AppendShippingTaxRows(s, sl.taxLines, taxes, vsaccount, vcenter);
    if withTaxes.Err? {
      return Err(withTaxes.error);
    }
    taxes := withTaxes.value;
    r := Ok(Booking(taxes, items));
  }

  /** `update_taxes_with_shipping_lines`: appends to the tax rows and items
      it is given, shipping line by shipping line. */
  method UpdateTaxesWithShippingLines(s: ShopifySetting, sls: seq<ShippingLine>, taxes0: seq<TaxRow>,
                                      items0: seq<OrderItem>, vsaccount: string, vcenter: string,
                                      taxesInclusive: bool, today: Date)
    returns (r: Result<Booking, TaxError>)
    ensures r == ShippingRows(s, sls, Booking(taxes0, items0), vsaccount, vcenter, taxesInclusive, today)
  {
    var b := Booking(taxes0, items0);
    ghost var b0 := b;
    var i := 0;
    while i < |sls|
      invariant 0 <= i <= |sls|
      invariant ShippingRows(s, sls[..i], b0, vsaccount, vcenter, taxesInclusive, today) == Ok(b)
    {
      ShippingRowsStep(s, sls, i, b0, vsaccount, vcenter, taxesInclusive, today);
      var next := AddShippingLine(s, sls[i], b, vsaccount, vcenter, taxesInclusive, today);
      if next.Err? {
        ShippingRowsErrPrefix(s, sls, i + 1, b0, vsaccount, vcenter, taxesInclusive, today);
        return Err(next.error);
      }
      b := next.value;
      i := i + 1;
    }
    assert sls[..i] == sls;
    r := Ok(b);
  }

  /** The line-item loop of `get_order_taxes`: the rows of each line item
      in order, stopping at the first error, and the shipping account and
      cost center of the last line item whose vendor is mapped. */
  method CollectProductTaxes(s: ShopifySetting, lis: seq<LineItem>, itemCode: LineItem -> string)
    returns (r: Result<seq<TaxRow>, TaxError>, vsaccount: string, vcenter: string)
    ensures r == ProductTaxRows(s, lis, itemCode)
    ensures r.Ok? ==> vsaccount == VendorShippingAccount(LastVendor(s, lis))
                      && vcenter == VendorCostCenter(LastVendor(s, lis))
  {
    var taxes: seq<TaxRow> := [];
    vsaccount, vcenter := "", "";
    var i := 0;
    while i < |lis|
      invariant 0 <= i <= |lis|
      invariant ProductTaxRows(s, lis[..i], itemCode) == Ok(taxes)
      invariant vsaccount == VendorShippingAccount(LastVendor(s, lis[..i]))
      invariant vcenter == VendorCostCenter(LastVendor(s, lis[..i]))
    {
      var li := lis[i];
      var code := itemCode(li);
      var vsett := VendorFor(s, li.vendor);
      if vsett.Some? {
        vsaccount := vsett.value.shippingRevenueAccount;
        vcenter := vsett.value.costCenter;
      }
      assert lis[..i + 1][..i] == lis[..i];
      assert vcenter == VendorCostCenter(LastVendor(s, lis[..i + 1]));
      ProductTaxRowsStep(s, lis, i, itemCode);
      var lineRows := AppendLineItemRows(s, li, code, Or(vcenter, s.costCenter), taxes);
      if lineRows.Err? {
        ProductTaxRowsErrPrefix(s, lis, i + 1, itemCode);
        return Err(lineRows.error), vsaccount, vcenter;
      }
      taxes := lineRows.value;
      i := i + 1;
    }
    assert lis[..i] == lis;
    r := Ok(taxes);
  }

  /** `get_order_taxes`: the vendor mapping and the rows of each line item,
      then shipping, then consolidation when the setting asks for it. */
  method GetOrderTaxes(s: ShopifySetting, order: Order, items: seq<OrderItem>,
                       itemCode: LineItem -> string, today: Date)
    returns (r: Result<Booking, TaxError>)
    ensures r == OrderTaxes(s, order, items, itemCode, today)
  {
    var product, vsaccount, vcenter := CollectProductTaxes(s, order.lineItems, itemCode);
    if product.Err? {
      return Err(product.error);
    }
    var taxes := product.value;
    var shipped := UpdateTaxesWithShippingLines(s, order.shippingLines, taxes, items, vsaccount, vcenter,
                                                order.taxesIncluded, today);
    if shipped.Err? {
      return Err(shipped.error);
    }
    var b := shipped.value;
    if s.consolidateTaxes {
      var consolidated := ConsolidateOrderTaxes(b.taxes);
      b := Booking(consolidated, b.items);
    }
    r := Ok(b);
  }
}
