/** The inventory controller of controllers/inventory.py: which
    (Ecommerce Item, Bin) pairs have stock changes not yet synced, the cost
    attached to each, the per-item aggregation over a group warehouse, and
    the sync stamp that marks an Ecommerce Item as synced. */
module InventoryLevels {
  import opened Common

  /** An Ecommerce Item row: the link between an ERP item and an
      integration's item. `inventorySyncedOn` is None while it has never
      been synced (NULL). */
  datatype EcomItem = EcomItem(
    name: string,
    erpnextItemCode: string,
    integrationItemCode: string,
    variantId: string,
    integration: string,
    inventorySyncedOn: Option<Date>)

  /** A Bin: the stock of one item in one warehouse. */
  datatype Bin = Bin(itemCode: string, warehouse: string, actualQty: real, reservedQty: real, modified: Date)

  /** A row of `get_inventory_levels`. */
  datatype InventoryLevel = InventoryLevel(
    ecomItem: string,
    itemCode: string,
    integrationItemCode: string,
    variantId: string,
    actualQty: real,
    reservedQty: real,
    warehouse: string,
    cost: real)

  // ---------------------------------------------------------------------
  // Selection

  /** The WHERE clause of the join: same item, a listed warehouse, the
      integration asked for, and a bin changed after the last sync (a NULL
      sync time compares as unknown, so a never-synced item is not
      selected). */
  predicate Selected(ei: EcomItem, b: Bin, warehouses: set<string>, integration: string)
  {
    && ei.erpnextItemCode == b.itemCode
    && b.warehouse in warehouses
    && ei.integration == integration
    && ei.inventorySyncedOn.Some?
    && b.modified > ei.inventorySyncedOn.value
  }

  function LevelOf(ei: EcomItem, b: Bin): InventoryLevel
  {
    InventoryLevel(ei.name, b.itemCode, ei.integrationItemCode, ei.variantId, b.actualQty, b.reservedQty,
                   b.warehouse, 0.0)
  }

  /** The rows the join yields for one Ecommerce Item. */
  function MatchBins(ei: EcomItem, bins: seq<Bin>, warehouses: set<string>, integration: string)
    : seq<InventoryLevel>
    decreases |bins|
  {
    if bins == [] then []
    else
      var b := bins[|bins| - 1];
      MatchBins(ei, bins[..|bins| - 1], warehouses, integration)
      + (if Selected(ei, b, warehouses, integration) then [LevelOf(ei, b)] else [])
  }

  /** The joined rows, Ecommerce Item by Ecommerce Item. */
  function Join(items: seq<EcomItem>, bins: seq<Bin>, warehouses: set<string>, integration: string)
    : seq<InventoryLevel>
    decreases |items|
  {
    if items == [] then []
    else
      Join(items[..|items| - 1], bins, warehouses, integration)
      + MatchBins(items[|items| - 1], bins, warehouses, integration)
  }

  lemma {:induction false} MatchBinsSpec(ei: EcomItem, bins: seq<Bin>, warehouses: set<string>, integration: string)
    ensures forall r :: r in MatchBins(ei, bins, warehouses, integration) <==>
              exists b :: b in bins && Selected(ei, b, warehouses, integration) && r == LevelOf(ei, b)
    decreases |bins|
  {
    if bins != [] {
      var n := |bins| - 1;
      MatchBinsSpec(ei, bins[..n], warehouses, integration);
      assert bins == bins[..n] + [bins[n]];
    }
  }

  /** A row is returned if and only if it joins an Ecommerce Item and a Bin
      that satisfy the selection. */
  lemma {:induction false} JoinSpec(items: seq<EcomItem>, bins: seq<Bin>, warehouses: set<string>, integration: string)
    ensures forall r :: r in Join(items, bins, warehouses, integration) <==>
              exists ei, b :: ei in items && b in bins && Selected(ei, b, warehouses, integration)
                              && r == LevelOf(ei, b)
    decreases |items|
  {
    if items != [] {
      var n := |items| - 1;
      JoinSpec(items[..n], bins, warehouses, integration);
      MatchBinsSpec(items[n], bins, warehouses, integration);
      assert items == items[..n] + [items[n]];
    }
  }

  // ---------------------------------------------------------------------
  // Cost

  /** The cost of a row: 0 without a valuation rate from a submitted Stock
      Ledger Entry; otherwise the incoming rate, or that valuation rate when
      the incoming rate is 0. */
  function Cost(valuationRate: real, incomingRate: real): real
  {
    if valuationRate != 0.0 then (if incomingRate != 0.0 then incomingRate else valuationRate) else 0.0
  }

  lemma CostRule(valuationRate: real, incomingRate: real)
    ensures Cost(valuationRate, incomingRate) == 0.0 <==> valuationRate == 0.0
    ensures valuationRate != 0.0 && incomingRate != 0.0 ==> Cost(valuationRate, incomingRate) == incomingRate
    ensures valuationRate != 0.0 && incomingRate == 0.0 ==> Cost(valuationRate, incomingRate) == valuationRate
  {
  }

  /** A row with its cost. The valuation rate of the item in the warehouse
      (0 when none) and the incoming rate for taking out its actual quantity
      come from the stock ledger, which is not part of this model. */
  function Costed(d: InventoryLevel, valuation: (string, string) -> real, incoming: (string, string, real) -> real)
    : InventoryLevel
  {
    d.(cost := Cost(valuation(d.itemCode, d.warehouse), incoming(d.itemCode, d.warehouse, -1.0 * d.actualQty)))
  }

  /** The loop of `get_inventory_levels` setting each row's cost. */
  method AssignCosts(data: seq<InventoryLevel>, valuation: (string, string) -> real,
                     incoming: (string, string, real) -> real)
    returns (out: seq<InventoryLevel>)
    ensures |out| == |data|
    ensures forall i :: 0 <= i < |data| ==> out[i] == Costed(data[i], valuation, incoming)
    ensures forall i :: 0 <= i < |data| ==> out[i].(cost := 0.0) == data[i].(cost := 0.0)
  {
    out := [];
    var i := 0;
    while i < |data|
      invariant 0 <= i <= |data|
      invariant |out| == i
      invariant forall j :: 0 <= j < i ==> out[j] == Costed(data[j], valuation, incoming)
    {
      var dt := data[i];
      var cost := 0.0;
      var valrate := valuation(dt.itemCode, dt.warehouse);
      if valrate != 0.0 {
        var rate := incoming(dt.itemCode, dt.warehouse, -1.0 * dt.actualQty);
        cost := if rate != 0.0 then rate else valrate;
      }
      out := out + [dt.(cost := cost)];
      i := i + 1;
    }
  }

  /** `get_inventory_levels`: the selected rows with their costs. */
  method GetInventoryLevels(items: seq<EcomItem>, bins: seq<Bin>, warehouses: set<string>, integration: string,
                            valuation: (string, string) -> real, incoming: (string, string, real) -> real)
    returns (data: seq<InventoryLevel>)
    ensures var joined := Join(items, bins, warehouses, integration);
            |data| == |joined| && forall i :: 0 <= i < |data| ==> data[i] == Costed(joined[i], valuation, incoming)
  {
    data := AssignCosts(Join(items, bins, warehouses, integration), valuation, incoming);
  }

  // ---------------------------------------------------------------------
  // Group warehouses

  /** A row of `get_inventory_levels_of_group_warehouse`. */
  datatype GroupLevel = GroupLevel(
    ecomItem: string,
    itemCode: string,
    integrationItemCode: string,
    variantId: string,
    actualQty: real,
    reservedQty: real,
    lastUpdated: Date,
    lastSynced: Option<Date>,
    warehouse: string)

  /** The joined pairs of the group query, before grouping: no condition on
      the sync time here, it moves to HAVING. */
  function GroupPairs(items: seq<EcomItem>, bins: seq<Bin>, warehouses: set<string>, integration: string)
    : seq<(EcomItem, Bin)>
    decreases |items|
  {
    if items == [] then []
    else
      var ei := items[|items| - 1];
      GroupPairs(items[..|items| - 1], bins, warehouses, integration)
      + PairsOf(ei, bins, warehouses, integration)
  }

  function PairsOf(ei: EcomItem, bins: seq<Bin>, warehouses: set<string>, integration: string)
    : seq<(EcomItem, Bin)>
    decreases |bins|
  {
    if bins == [] then []
    else
      var b := bins[|bins| - 1];
      PairsOf(ei, bins[..|bins| - 1], warehouses, integration)
      + (if ei.erpnextItemCode == b.itemCode && b.warehouse in warehouses && ei.integration == integration
         then [(ei, b)] else [])
  }

  /** The GROUP BY keys, in order of first appearance. */
  function Codes(pairs: seq<(EcomItem, Bin)>): seq<string>
    decreases |pairs|
  {
    if pairs == [] then []
    else
      var init := Codes(pairs[..|pairs| - 1]);
      var c := pairs[|pairs| - 1].0.erpnextItemCode;
      if c in init then init else init + [c]
  }

  lemma {:induction false} CodesSpec(pairs: seq<(EcomItem, Bin)>)
    ensures forall c :: c in Codes(pairs) <==> exists p :: p in pairs && p.0.erpnextItemCode == c
    ensures forall i, j :: 0 <= i < j < |Codes(pairs)| ==> Codes(pairs)[i] != Codes(pairs)[j]
    decreases |pairs|
  {
    if pairs != [] {
      var n := |pairs| - 1;
      CodesSpec(pairs[..n]);
      assert pairs == pairs[..n] + [pairs[n]];
    }
  }

  /** The pairs of one group. */
  function InGroup(pairs: seq<(EcomItem, Bin)>, code: string): seq<(EcomItem, Bin)>
    decreases |pairs|
  {
    if pairs == [] then []
    else
      var p := pairs[|pairs| - 1];
      InGroup(pairs[..|pairs| - 1], code) + (if p.0.erpnextItemCode == code then [p] else [])
  }

  function MaxOpt(a: Option<Date>, b: Option<Date>): Option<Date>
  {
    match (a, b)
    case (None, _) => b
    case (_, None) => a
    case (Some(x), Some(y)) => Some(if x >= y then x else y)
  }

  /** SQL `max(bin.modified)`. */
  function MaxModified(ps: seq<(EcomItem, Bin)>): Option<Date>
    decreases |ps|
  {
    if ps == [] then None else MaxOpt(MaxModified(ps[..|ps| - 1]), Some(ps[|ps| - 1].1.modified))
  }

  /** SQL `max(ei.inventory_synced_on)`: NULLs are skipped, and it is NULL
      when every value is. */
  function MaxSynced(ps: seq<(EcomItem, Bin)>): Option<Date>
    decreases |ps|
  {
    if ps == [] then None else MaxOpt(MaxSynced(ps[..|ps| - 1]), ps[|ps| - 1].0.inventorySyncedOn)
  }

  lemma {:induction false} MaxModifiedSpec(ps: seq<(EcomItem, Bin)>)
    ensures MaxModified(ps).None? <==> ps == []
    ensures MaxModified(ps).Some? ==>
              (exists p :: p in ps && p.1.modified == MaxModified(ps).value)
              && forall p :: p in ps ==> p.1.modified <= MaxModified(ps).value
    decreases |ps|
  {
    if ps != [] {
      var n := |ps| - 1;
      MaxModifiedSpec(ps[..n]);
      assert ps == ps[..n] + [ps[n]];
    }
  }

  lemma {:induction false} MaxSyncedSpec(ps: seq<(EcomItem, Bin)>)
    ensures MaxSynced(ps).None? <==> forall p :: p in ps ==> p.0.inventorySyncedOn.None?
    ensures MaxSynced(ps).Some? ==>
              (exists p :: p in ps && p.0.inventorySyncedOn == MaxSynced(ps))
              && forall p :: p in ps && p.0.inventorySyncedOn.Some? ==>
                   p.0.inventorySyncedOn.value <= MaxSynced(ps).value
    decreases |ps|
  {
    if ps != [] {
      var n := |ps| - 1;
      MaxSyncedSpec(ps[..n]);
      assert ps == ps[..n] + [ps[n]];
    }
  }

  function PairActual(p: (EcomItem, Bin)): real { p.1.actualQty }

  function PairReserved(p: (EcomItem, Bin)): real { p.1.reservedQty }

  /** HAVING `last_updated > last_synced` (false when either is NULL). */
  predicate Stale(group: seq<(EcomItem, Bin)>)
  {
    MaxModified(group).Some? && MaxSynced(group).Some? && MaxModified(group).value > MaxSynced(group).value
  }

  /** The aggregated row of a non-empty group; the non-aggregated columns
      come from its first pair. */
  function GroupRow(group: seq<(EcomItem, Bin)>): GroupLevel
    requires group != []
  {
    var first := group[0];
    GroupLevel(first.0.name, first.1.itemCode, first.0.integrationItemCode, first.0.variantId,
               SumOf(group, PairActual), SumOf(group, PairReserved),
               if MaxModified(group).Some? then MaxModified(group).value else 0,
               MaxSynced(group), "")
  }

  /** The grouped rows for the given keys, HAVING applied. */
  function GroupRows(pairs: seq<(EcomItem, Bin)>, codes: seq<string>): seq<GroupLevel>
    decreases |codes|
  {
    if codes == [] then []
    else
      var group := InGroup(pairs, codes[|codes| - 1]);
      GroupRows(pairs, codes[..|codes| - 1]) + (if group != [] && Stale(group) then [GroupRow(group)] else [])
  }

  lemma {:induction false} InGroupSpec(pairs: seq<(EcomItem, Bin)>, code: string)
    ensures forall p :: p in InGroup(pairs, code) <==> p in pairs && p.0.erpnextItemCode == code
    decreases |pairs|
  {
    if pairs != [] {
      var n := |pairs| - 1;
      InGroupSpec(pairs[..n], code);
      assert pairs == pairs[..n] + [pairs[n]];
    }
  }

  /** Every grouped row is the aggregate of one group that has a bin changed
      after the latest sync of any of the group's items; and every group that
      has such a bin yields a row. */
  lemma {:induction false} GroupRowsSpec(pairs: seq<(EcomItem, Bin)>, codes: seq<string>)
    ensures forall r :: r in GroupRows(pairs, codes) ==>
              exists c :: c in codes && InGroup(pairs, c) != [] && Stale(InGroup(pairs, c))
                          && r == GroupRow(InGroup(pairs, c))
    ensures forall c :: c in codes && InGroup(pairs, c) != [] && Stale(InGroup(pairs, c)) ==>
              GroupRow(InGroup(pairs, c)) in GroupRows(pairs, codes)
    decreases |codes|
  {
    if codes != [] {
      var n := |codes| - 1;
      GroupRowsSpec(pairs, codes[..n]);
      assert codes == codes[..n] + [codes[n]];
      var group := InGroup(pairs, codes[n]);
      forall r | r in GroupRows(pairs, codes)
        ensures exists c :: c in codes && InGroup(pairs, c) != [] && Stale(InGroup(pairs, c))
                            && r == GroupRow(InGroup(pairs, c))
      {
        if r !in GroupRows(pairs, codes[..n]) {
          assert group != [] && Stale(group) && r == GroupRow(group);
          assert codes[n] in codes;
        }
      }
    }
  }

  /** The HAVING test in terms of the group's bins and items: a group is kept
      if and only if some item of it has been synced and some bin of it
      changed after every sync time of its items. */
  lemma StaleMeans(group: seq<(EcomItem, Bin)>)
    ensures Stale(group) <==>
              (exists p :: p in group && p.0.inventorySyncedOn.Some?)
              && exists p :: p in group && forall q :: q in group && q.0.inventorySyncedOn.Some? ==>
                                              p.1.modified > q.0.inventorySyncedOn.value
  {
    MaxModifiedSpec(group);
    MaxSyncedSpec(group);
    if Stale(group) {
      var p :| p in group && p.1.modified == MaxModified(group).value;
      assert forall q :: q in group && q.0.inventorySyncedOn.Some? ==> p.1.modified > q.0.inventorySyncedOn.value;
    }
    if (exists p :: p in group && p.0.inventorySyncedOn.Some?)
       && exists p :: p in group && forall q :: q in group && q.0.inventorySyncedOn.Some? ==>
                                     p.1.modified > q.0.inventorySyncedOn.value {
      var p :| p in group && forall q :: q in group && q.0.inventorySyncedOn.Some? ==>
                                p.1.modified > q.0.inventorySyncedOn.value;
      var q :| q in group && q.0.inventorySyncedOn == MaxSynced(group);
      assert p.1.modified <= MaxModified(group).value;
    }
  }

  /** The loop of `get_inventory_levels_of_group_warehouse` labelling every
      row with the group warehouse. */
  method SetGroupWarehouse(data: seq<GroupLevel>, warehouse: string) returns (out: seq<GroupLevel>)
    ensures |out| == |data|
    ensures forall i :: 0 <= i < |data| ==> out[i] == data[i].(warehouse := warehouse)
  {
    out := [];
    var i := 0;
    while i < |data|
      invariant 0 <= i <= |data|
      invariant |out| == i
      invariant forall j :: 0 <= j < i ==> out[j] == data[j].(warehouse := warehouse)
    {
      out := out + [data[i].(warehouse := warehouse)];
      i := i + 1;
    }
  }

  /** `get_inventory_levels_of_group_warehouse`: the query over the group
      warehouse and all its descendants, one row per ERP item code with the
      quantities summed, every row labelled with the group warehouse. */
  method GetInventoryLevelsOfGroupWarehouse(items: seq<EcomItem>, bins: seq<Bin>, warehouse: string,
                                            descendants: set<string>, integration: string)
    returns (data: seq<GroupLevel>)
    ensures var pairs := GroupPairs(items, bins, descendants + {warehouse}, integration);
            var rows := GroupRows(pairs, Codes(pairs));
            |data| == |rows| && forall i :: 0 <= i < |data| ==> data[i] == rows[i].(warehouse := warehouse)
    ensures forall i :: 0 <= i < |data| ==> data[i].warehouse == warehouse
  {
    var allWarehouses := descendants + {warehouse};
    var pairs := GroupPairs(items, bins, allWarehouses, integration);
    data := SetGroupWarehouse(GroupRows(pairs, Codes(pairs)), warehouse);
  }

  /** Each grouped row aggregates one ERP item code's group: its
      quantities are the sums over the group's bins and its sync time the
      latest of the group's items. */
  lemma GroupRowsAggregate(pairs: seq<(EcomItem, Bin)>)
    ensures forall r :: r in GroupRows(pairs, Codes(pairs)) ==>
              exists c :: c in Codes(pairs) && InGroup(pairs, c) != []
                          && r.actualQty == SumOf(InGroup(pairs, c), PairActual)
                          && r.reservedQty == SumOf(InGroup(pairs, c), PairReserved)
                          && r.lastSynced == MaxSynced(InGroup(pairs, c))
                          && Stale(InGroup(pairs, c))
  {
    GroupRowsSpec(pairs, Codes(pairs));
  }

  // ---------------------------------------------------------------------
  // Sync stamp

  /** The table with `inventory_synced_on` of the named record set to `t`;
      every other field and record unchanged. */
  function Stamped(rows: seq<EcomItem>, name: string, t: Date): (r: seq<EcomItem>)
    ensures |r| == |rows|
    ensures forall i :: 0 <= i < |rows| ==>
              r[i].(inventorySyncedOn := rows[i].inventorySyncedOn) == rows[i]
              && (rows[i].name == name ==> r[i].inventorySyncedOn == Some(t))
              && (rows[i].name != name ==> r[i] == rows[i])
  {
    seq(|rows|, i requires 0 <= i < |rows| =>
      if rows[i].name == name then rows[i].(inventorySyncedOn := Some(t)) else rows[i])
  }

  /** After syncing an item at a time no earlier than a bin's last change,
      that (item, bin) pair is not selected again until the bin changes. */
  lemma StampedNotReselected(rows: seq<EcomItem>, name: string, t: Date, b: Bin, warehouses: set<string>,
                             integration: string)
    requires b.modified <= t
    ensures forall ei :: ei in Stamped(rows, name, t) && ei.name == name ==> !Selected(ei, b, warehouses, integration)
    ensures forall r :: r in Join(Stamped(rows, name, t), [b], warehouses, integration) ==> r.ecomItem != name
  {
    var st := Stamped(rows, name, t);
    forall ei | ei in st && ei.name == name
      ensures ei.inventorySyncedOn == Some(t)
    {
      var i :| 0 <= i < |st| && st[i] == ei;
    }
    JoinSpec(st, [b], warehouses, integration);
  }

  /** The Ecommerce Item table, whose records the sync updates in place. */
  class EcommerceItems {
    var rows: seq<EcomItem>

    constructor (rows: seq<EcomItem>)
      ensures this.rows == rows
    {
      this.rows := rows;
    }

    /** `update_inventory_sync_status`: stamps the record with `time`, or
        with `now` when no time is given. */
    method UpdateInventorySyncStatus(ecommerceItem: string, time: Option<Date>, now: Date)
      modifies this
      ensures rows == Stamped(old(rows), ecommerceItem, if time.Some? then time.value else now)
    {
      var t := if time.None? then now else time.value;
      rows := seq(|rows|, i requires 0 <= i < |rows| reads this =>
        if rows[i].name == ecommerceItem then rows[i].(inventorySyncedOn := Some(t)) else rows[i]);
    }
  }
}
